/** The browser-only account service: a user list, a password table keyed by
    e-mail holding Base64-encoded passwords, a session token and the current
    user, all kept in local storage. */
module LocalAuth {
  import opened Wrappers
  import opened Seqs
  import opened JsText
  import opened Base64

  datatype Role = Patient | Doctor | Admin

  /** A stored account. Dates are kept as the ISO text local storage holds. */
  datatype User = User(
    id: string,
    email: string,
    username: string,
    firstName: string,
    lastName: string,
    phone: Option<string>,
    createdAt: string,
    lastLogin: Option<string>,
    role: Role)

  /** A `Partial<User>` given to `updateProfile`: `None` is a key left out.
      For the optional fields `Some(None)` is a key present with the value
      `undefined`, which the spread copies over the old value. */
  datatype UserPatch = UserPatch(
    id: Option<string>,
    email: Option<string>,
    username: Option<string>,
    firstName: Option<string>,
    lastName: Option<string>,
    phone: Option<Option<string>>,
    createdAt: Option<string>,
    lastLogin: Option<Option<string>>,
    role: Option<Role>)

  const EmptyPatch := UserPatch(None, None, None, None, None, None, None, None, None)

  datatype Registration = Registration(
    email: string, username: string, password: string,
    firstName: string, lastName: string, phone: Option<string>)

  datatype AuthResponse = AuthResponse(success: bool, message: string, user: Option<User>, token: Option<string>)

  /** What `Date.now()`, `new Date()` and `Math.random().toString(36)` gave. */
  datatype Clock = Clock(now: nat, iso: string, randomText: string)

  const InvalidCredentials := "Invalid email or password"
  const Unauthorized := "Unauthorized"
  /** The exception `btoa` raises on a character above U+00FF. */
  const InvalidCharacter := "InvalidCharacterError"

  function Reply(success: bool, message: string): AuthResponse {
    AuthResponse(success, message, None, None)
  }

  /** `generateToken`: `btoa` of the clock and the random text. */
  function GenerateToken(c: Clock): (r: Option<string>)
    ensures r.Some? <==> IsLatin1(c.randomText)
    ensures r.Some? ==> r.value != ""
  {
    var stamp := NatString(c.now) + "-";
    assert forall i :: 0 <= i < |stamp| ==> stamp[i] as int < 256;
    var text := stamp + c.randomText;
    assert IsLatin1(text) <==> IsLatin1(c.randomText) by {
      assert forall i :: 0 <= i < |c.randomText| ==> text[|stamp| + i] == c.randomText[i];
    }
    Btoa(text)
  }

  /** The password entry stored for `email`, if any. */
  function StoredPassword(passwords: map<string, string>, email: string): Option<string> {
    if email in passwords then Some(passwords[email]) else None
  }

  /** `!storedPassword || storedPassword !== btoa(password)` negated:
      `Some(true)` when the password matches, `Some(false)` when it does not
      (an absent or empty stored entry never matches, and `btoa` is then not
      evaluated), `None` when `btoa` throws. */
  function PasswordCheck(stored: Option<string>, password: string): (r: Option<bool>)
    ensures stored.None? || stored == Some("") ==> r == Some(false)
    ensures r.None? <==> stored.Some? && stored.value != "" && !IsLatin1(password)
    ensures r == Some(true) ==> stored == Btoa(password)
  {
    if stored.None? || stored.value == "" then Some(false)
    else match Btoa(password)
      case None => None
      case Some(e) => Some(stored.value == e)
  }

  /** After a password is stored it is accepted, and it is the only one
      accepted, except that an empty password is stored as the empty string
      and then never accepted. */
  lemma PasswordCheckAfterSet(password: string, attempt: string)
    requires Btoa(password).Some?
    ensures attempt == password && password != "" ==> PasswordCheck(Btoa(password), attempt) == Some(true)
    ensures PasswordCheck(Btoa(password), attempt) == Some(true) ==> attempt == password
    ensures password == "" ==> PasswordCheck(Btoa(password), attempt) == Some(false)
  {
    if PasswordCheck(Btoa(password), attempt) == Some(true) {
      BtoaInjective(attempt, password);
    }
  }

  /** `{ ...user, ...data }`. */
  function MergeUser(u: User, d: UserPatch): (r: User)
    ensures d.createdAt.None? ==> r.createdAt == u.createdAt
    ensures d.lastLogin.None? ==> r.lastLogin == u.lastLogin
    ensures d == EmptyPatch ==> r == u
  {
    User(
      d.id.GetOr(u.id),
      d.email.GetOr(u.email),
      d.username.GetOr(u.username),
      d.firstName.GetOr(u.firstName),
      d.lastName.GetOr(u.lastName),
      d.phone.GetOr(u.phone),
      d.createdAt.GetOr(u.createdAt),
      d.lastLogin.GetOr(u.lastLogin),
      d.role.GetOr(u.role))
  }

  /** A supplied field takes the supplied value; the empty patch changes nothing. */
  lemma MergeUserFields(u: User, d: UserPatch)
    ensures MergeUser(u, d).id == (if d.id.Some? then d.id.value else u.id)
    ensures MergeUser(u, d).email == (if d.email.Some? then d.email.value else u.email)
    ensures MergeUser(u, d).username == (if d.username.Some? then d.username.value else u.username)
    ensures MergeUser(u, d).firstName == (if d.firstName.Some? then d.firstName.value else u.firstName)
    ensures MergeUser(u, d).lastName == (if d.lastName.Some? then d.lastName.value else u.lastName)
    ensures MergeUser(u, d).phone == (if d.phone.Some? then d.phone.value else u.phone)
    ensures MergeUser(u, d).createdAt == (if d.createdAt.Some? then d.createdAt.value else u.createdAt)
    ensures MergeUser(u, d).lastLogin == (if d.lastLogin.Some? then d.lastLogin.value else u.lastLogin)
    ensures MergeUser(u, d).role == (if d.role.Some? then d.role.value else u.role)
    ensures MergeUser(MergeUser(u, d), d) == MergeUser(u, d)
  {
  }

  /** `requestPasswordReset`: the answer is a success whether or not the
      e-mail belongs to an account, so it does not reveal which do. */
  function PasswordResetReply(users: seq<User>, email: string): (r: AuthResponse)
    ensures r.success && r.user.None? && r.token.None?
  {
    if FindIndex(users, (u: User) => u.email == email).None? then
      Reply(true, "If an account with that email exists, a password reset link has been sent.")
    else
      Reply(true, "Password reset link sent to your email.")
  }

  class LocalAuthStore {
    var users: seq<User>
    var passwords: map<string, string>
    var token: Option<string>
    var currentUser: Option<User>

    constructor(users: seq<User>, passwords: map<string, string>, token: Option<string>, currentUser: Option<User>)
      ensures this.users == users && this.passwords == passwords
      ensures this.token == token && this.currentUser == currentUser
    {
      this.users := users;
      this.passwords := passwords;
      this.token := token;
      this.currentUser := currentUser;
    }

    /** `isAuthenticated`: a non-empty token is stored. */
    function IsAuthenticated(): bool
      reads this
    {
      token.Some? && token.value != ""
    }

    /** `register`. A `Failure` is the exception `btoa` raises; the duplicate
        e-mail check comes before the duplicate user-name check. */
    method Register(data: Registration, clock: Clock) returns (r: Result<AuthResponse, string>)
      modifies this
      ensures (exists i :: 0 <= i < |old(users)| && old(users)[i].email == data.email) ==>
        r == Success(Reply(false, "Email already registered")) && unchanged(this)
      ensures ((forall i :: 0 <= i < |old(users)| ==> old(users)[i].email != data.email)
        && (exists i :: 0 <= i < |old(users)| && old(users)[i].username == data.username)) ==>
        r == Success(Reply(false, "Username already taken")) && unchanged(this)
      ensures r.Success? && r.value.success <==>
        (forall i :: 0 <= i < |old(users)| ==> old(users)[i].email != data.email && old(users)[i].username != data.username)
        && IsLatin1(data.password) && IsLatin1(clock.randomText)
      ensures r.Success? && r.value.success ==>
        var u := User("user_" + NatString(clock.now), data.email, data.username,
          data.firstName, data.lastName, data.phone, clock.iso, None, Patient);
        && users == old(users) + [u]
        && Btoa(data.password).Some?
        && passwords == old(passwords)[data.email := Btoa(data.password).value]
        && token == GenerateToken(clock) && token.Some?
        && currentUser == Some(u)
        && IsAuthenticated()
        && r.value == AuthResponse(true, "Registration successful", Some(u), token)
      ensures r.Failure? ==> r.error == InvalidCharacter
      ensures r.Failure? && !IsLatin1(data.password) ==> unchanged(this)
      ensures r.Failure? && IsLatin1(data.password) ==>
        var u := User("user_" + NatString(clock.now), data.email, data.username,
          data.firstName, data.lastName, data.phone, clock.iso, None, Patient);
        && users == old(users) + [u]
        && passwords == old(passwords)[data.email := Btoa(data.password).value]
        && token == old(token) && currentUser == old(currentUser)
    {
      if FindIndex(users, (u: User) => u.email == data.email).Some? {
        return Success(Reply(false, "Email already registered"));
      }
      if FindIndex(users, (u: User) => u.username == data.username).Some? {
        return Success(Reply(false, "Username already taken"));
      }
      var newUser := User("user_" + NatString(clock.now), data.email, data.username,
        data.firstName, data.lastName, data.phone, clock.iso, None, Patient);
      var encoded := Btoa(data.password);
      if encoded.None? {
        return Failure(InvalidCharacter);
      }
      passwords := passwords[data.email := encoded.value];
      users := users + [newUser];
      var t := GenerateToken(clock);
      if t.None? {
        return Failure(InvalidCharacter);
      }
      token := t;
      currentUser := Some(newUser);
      return Success(AuthResponse(true, "Registration successful", Some(newUser), t));
    }

    /** `login`: an unknown e-mail and a wrong password give the same answer;
        a success records the login time on the first account with that
        e-mail and on nothing else. */
    method Login(email: string, password: string, clock: Clock) returns (r: Result<AuthResponse, string>)
      modifies this
      ensures var k := FindIndex(old(users), (u: User) => u.email == email);
        var check := PasswordCheck(StoredPassword(old(passwords), email), password);
        && (k.None? || check == Some(false) <==> r == Success(Reply(false, InvalidCredentials)))
        && (r == Success(Reply(false, InvalidCredentials)) ==> unchanged(this))
        && (k.Some? && check.None? ==> r == Failure(InvalidCharacter) && unchanged(this))
        && (k.Some? && check == Some(true) ==>
            var u := old(users)[k.value].(lastLogin := Some(clock.iso));
            && users == old(users)[k.value := u]
            && passwords == old(passwords)
            && (IsLatin1(clock.randomText) ==>
                && token == GenerateToken(clock) && token.Some?
                && currentUser == Some(u)
                && IsAuthenticated()
                && r == Success(AuthResponse(true, "Login successful", Some(u), token)))
            && (!IsLatin1(clock.randomText) ==>
                r == Failure(InvalidCharacter) && token == old(token) && currentUser == old(currentUser)))
      ensures r.Failure? ==> r.error == InvalidCharacter
    {
      var k := FindIndex(users, (u: User) => u.email == email);
      if k.None? {
        return Success(Reply(false, InvalidCredentials));
      }
      var check := PasswordCheck(StoredPassword(passwords, email), password);
      if check.None? {
        return Failure(InvalidCharacter);
      }
      if !check.value {
        return Success(Reply(false, InvalidCredentials));
      }
      var u := users[k.value].(lastLogin := Some(clock.iso));
      users := users[k.value := u];
      var t := GenerateToken(clock);
      if t.None? {
        return Failure(InvalidCharacter);
      }
      token := t;
      currentUser := Some(u);
      return Success(AuthResponse(true, "Login successful", Some(u), t));
    }

    /** `logout`: afterwards the session is not authenticated. */
    method Logout()
      modifies this
      ensures token == None && currentUser == None && !IsAuthenticated()
      ensures users == old(users) && passwords == old(passwords)
    {
      token := None;
      currentUser := None;
    }

    /** `updateProfile`: merges the patch into the first account with that id. */
    method UpdateProfile(userId: string, patch: UserPatch) returns (r: AuthResponse)
      modifies this
      ensures var k := FindIndex(old(users), (u: User) => u.id == userId);
        && (k.None? ==> r == Reply(false, "User not found") && unchanged(this))
        && (k.Some? ==>
            var u := MergeUser(old(users)[k.value], patch);
            && users == old(users)[k.value := u]
            && currentUser == Some(u)
            && r == AuthResponse(true, "Profile updated successfully", Some(u), None))
      ensures passwords == old(passwords) && token == old(token)
    {
      var k := FindIndex(users, (u: User) => u.id == userId);
      if k.None? {
        return Reply(false, "User not found");
      }
      var u := MergeUser(users[k.value], patch);
      users := users[k.value := u];
      currentUser := Some(u);
      return AuthResponse(true, "Profile updated successfully", Some(u), None);
    }

    /** `changePassword`: only the signed-in user, and only with the right
        current password, replaces that e-mail's entry and nothing else. */
    method ChangePassword(userId: string, currentPassword: string, newPassword: string)
      returns (r: Result<AuthResponse, string>)
      modifies this
      ensures currentUser.None? || currentUser.value.id != userId ==>
        r == Success(Reply(false, Unauthorized)) && unchanged(this)
      ensures currentUser.Some? && currentUser.value.id == userId ==>
        var email := currentUser.value.email;
        var check := PasswordCheck(StoredPassword(old(passwords), email), currentPassword);
        && (check.None? ==> r == Failure(InvalidCharacter) && unchanged(this))
        && (check == Some(false) ==> r == Success(Reply(false, "Current password is incorrect")) && unchanged(this))
        && (check == Some(true) && Btoa(newPassword).None? ==> r == Failure(InvalidCharacter) && unchanged(this))
        && (check == Some(true) && Btoa(newPassword).Some? ==>
            && r == Success(Reply(true, "Password changed successfully"))
            && passwords == old(passwords)[email := Btoa(newPassword).value])
      ensures r.Failure? ==> r.error == InvalidCharacter && unchanged(this)
      ensures users == old(users) && token == old(token) && currentUser == old(currentUser)
    {
      if currentUser.None? || currentUser.value.id != userId {
        return Success(Reply(false, Unauthorized));
      }
      var email := currentUser.value.email;
      var check := PasswordCheck(StoredPassword(passwords, email), currentPassword);
      if check.None? {
        return Failure(InvalidCharacter);
      }
      if !check.value {
        return Success(Reply(false, "Current password is incorrect"));
      }
      var encoded := Btoa(newPassword);
      if encoded.None? {
        return Failure(InvalidCharacter);
      }
      passwords := passwords[email := encoded.value];
      return Success(Reply(true, "Password changed successfully"));
    }

    /** `requestPasswordReset`. */
    function RequestPasswordReset(email: string): (r: AuthResponse)
      reads this
      ensures r.success
    {
      PasswordResetReply(users, email)
    }

    /** `deleteAccount`: removes every account with that id and the e-mail's
        password entry, then signs out. */
    method DeleteAccount(userId: string, password: string) returns (r: Result<AuthResponse, string>)
      modifies this
      ensures old(currentUser).None? || old(currentUser).value.id != userId ==>
        r == Success(Reply(false, Unauthorized)) && unchanged(this)
      ensures old(currentUser).Some? && old(currentUser).value.id == userId ==>
        var email := old(currentUser).value.email;
        var check := PasswordCheck(StoredPassword(old(passwords), email), password);
        && (check.None? ==> r == Failure(InvalidCharacter) && unchanged(this))
        && (check == Some(false) ==> r == Success(Reply(false, "Incorrect password")) && unchanged(this))
        && (check == Some(true) ==>
            && users == Filter(old(users), (u: User) => u.id != userId)
            && passwords == old(passwords) - {email}
            && token == None && currentUser == None
            && r == Success(Reply(true, "Account deleted successfully")))
      ensures r.Failure? ==> r.error == InvalidCharacter && unchanged(this)
    {
      if currentUser.None? || currentUser.value.id != userId {
        return Success(Reply(false, Unauthorized));
      }
      var email := currentUser.value.email;
      var check := PasswordCheck(StoredPassword(passwords, email), password);
      if check.None? {
        return Failure(InvalidCharacter);
      }
      if !check.value {
        return Success(Reply(false, "Incorrect password"));
      }
      users := Filter(users, (u: User) => u.id != userId);
      passwords := passwords - {email};
      Logout();
      return Success(Reply(true, "Account deleted successfully"));
    }
  }

  /** After a deletion no account has the deleted id, and the others stay in order. */
  lemma DeletedAccountsGone(users: seq<User>, userId: string)
    ensures forall u :: u in Filter(users, (v: User) => v.id != userId) <==> u in users && u.id != userId
    ensures IsSubsequence(Filter(users, (v: User) => v.id != userId), users)
    ensures forall u ::
      multiset(Filter(users, (v: User) => v.id != userId))[u] == if u.id != userId then multiset(users)[u] else 0
  {
    forall u ensures multiset(Filter(users, (v: User) => v.id != userId))[u] ==
      if u.id != userId then multiset(users)[u] else 0
    {
      FilterMultiset(users, (v: User) => v.id != userId, u);
    }
    forall u ensures u in Filter(users, (v: User) => v.id != userId) <==> u in users && u.id != userId {
      FilterMembership(users, (v: User) => v.id != userId, u);
    }
    FilterIsSubsequence(users, (v: User) => v.id != userId);
  }
}
