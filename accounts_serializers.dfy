/**
 * The account serializers of the back end (backend/accounts/serializers.py):
 * registration, login, profile update and password change checks, and the
 * creation of a user with its profile. The user table is a sequence of rows;
 * a password is kept as the text `check_password` compares against (the
 * hashing is left out).
 */
module AccountsSerializers {
  import opened Wrappers

  /** A row of `auth_user_extended`; `password` is None for an unusable password. */
  datatype UserRow = UserRow(
    id: nat, username: string, email: string, firstName: string, lastName: string,
    password: Option<string>, isActive: bool, avatar: Option<string>, bio: string, phone: string, dateJoined: int)

  /** A `UserProfile` row with its model defaults. */
  datatype Profile = Profile(user: nat, theme: string, language: string, notificationsEnabled: bool, emailNotifications: bool)

  function DefaultProfile(user: nat): (p: Profile)
    ensures p.user == user && p.theme == "light" && p.language == "zh-cn"
    ensures p.notificationsEnabled && p.emailNotifications
  {
    Profile(user, "light", "zh-cn", true, true)
  }

  /** A serializer's errors: per field, and those `validate` raises. */
  datatype Errors = Errors(fields: map<string, seq<string>>, nonField: seq<string>)

  function NonField(message: string): Errors
  {
    Errors(map[], [message])
  }

  // ---------------------------------------------------------------------------
  // Registration
  // ---------------------------------------------------------------------------

  /** The registration form. */
  datatype Registration = Registration(
    username: string, email: string, firstName: string, lastName: string, password: string, passwordConfirm: string)

  const ConfirmMismatch: string := "密码确认不匹配"

  /**
   * `is_valid` of the registration serializer: the field errors (blank fields,
   * a taken username, Django's password validators, which are library code and
   * come in as `fieldErrors`) first; only without them does `validate` compare
   * the two passwords.
   */
  function ValidateRegistration(r: Registration, fieldErrors: map<string, seq<string>>): (v: Result<Registration>)
    ensures v.Ok? <==> fieldErrors == map[] && r.password == r.passwordConfirm
    ensures v.Ok? ==> v.value == r
    ensures fieldErrors == map[] && r.password != r.passwordConfirm ==> v == Err(ConfirmMismatch)
  {
    if fieldErrors != map[] then Err("fields")
    else if r.password != r.passwordConfirm then Err(ConfirmMismatch)
    else Ok(r)
  }

  /** The row `create` writes: `password_confirm` dropped, the password set. */
  function NewUser(id: nat, r: Registration, today: int): (u: UserRow)
    ensures u.id == id && u.username == r.username && u.email == r.email
    ensures u.password == Some(r.password) && u.isActive
  {
    UserRow(id, r.username, r.email, r.firstName, r.lastName, Some(r.password), true, None, "", "", today)
  }

  // ---------------------------------------------------------------------------
  // Login
  // ---------------------------------------------------------------------------

  /** The index of the row with this user name (user names are unique). */
  function FindUser(users: seq<UserRow>, username: string): (r: Option<nat>)
    ensures r.Some? ==> r.value < |users| && users[r.value].username == username
    ensures r.None? ==> forall i :: 0 <= i < |users| ==> users[i].username != username
  {
    if users == [] then None
    else if users[|users| - 1].username == username then Some(|users| - 1)
    else FindUser(users[..|users| - 1], username)
  }

  /** `check_password`. */
  predicate CheckPassword(u: UserRow, password: string)
  {
    u.password == Some(password)
  }

  /**
   * Django's `authenticate` with the default `ModelBackend`: the user of that
   * name when the password checks and the account is active.
   */
  function Authenticate(users: seq<UserRow>, username: string, password: string): (r: Option<UserRow>)
    ensures r.Some? ==> r.value in users && r.value.username == username && CheckPassword(r.value, password) && r.value.isActive
  {
    match FindUser(users, username) {
      case None => None
      case Some(i) => if CheckPassword(users[i], password) && users[i].isActive then Some(users[i]) else None
    }
  }

  /** `authenticate` with a backend that lets inactive users through (`AllowAllUsersModelBackend`). */
  function AuthenticateAny(users: seq<UserRow>, username: string, password: string): (r: Option<UserRow>)
    ensures r.Some? ==> r.value in users && r.value.username == username && CheckPassword(r.value, password)
  {
    match FindUser(users, username) {
      case None => None
      case Some(i) => if CheckPassword(users[i], password) then Some(users[i]) else None
    }
  }

  const BadCredentials: string := "用户名或密码错误"
  const Disabled: string := "用户账户已被禁用"
  const MissingCredentials: string := "必须提供用户名和密码"

  /** A Python string used as a condition. */
  predicate Given(s: Option<string>)
  {
    s.Some? && s.value != ""
  }

  /** The login serializer's `validate` as written, over `ModelBackend`. */
  function ValidateLoginAsWritten(users: seq<UserRow>, username: Option<string>, password: Option<string>): (r: Result<UserRow>)
    ensures r.Ok? ==> && Given(username) && Given(password) && r.value in users && r.value.isActive
                      && r.value.username == username.value && CheckPassword(r.value, password.value)
  {
    if Given(username) && Given(password) then
      match Authenticate(users, username.value, password.value) {
        case None => Err(BadCredentials)
        case Some(u) => if !u.isActive then Err(Disabled) else Ok(u)
      }
    else Err(MissingCredentials)
  }

  /** The login serializer's `validate` as its messages mean it: a disabled account is told so. */
  function ValidateLogin(users: seq<UserRow>, username: Option<string>, password: Option<string>): (r: Result<UserRow>)
    ensures r.Ok? ==> && Given(username) && Given(password) && r.value in users && r.value.isActive
                      && r.value.username == username.value && CheckPassword(r.value, password.value)
  {
    if Given(username) && Given(password) then
      match AuthenticateAny(users, username.value, password.value) {
        case None => Err(BadCredentials)
        case Some(u) => if !u.isActive then Err(Disabled) else Ok(u)
      }
    else Err(MissingCredentials)
  }

  /**
   * Login: a missing or empty field fails first; then the credentials must
   * name a user whose password checks; then the user must be active. Only an
   * active user with the right password logs in.
   */
  lemma LoginRules(users: seq<UserRow>, username: Option<string>, password: Option<string>)
    ensures !(Given(username) && Given(password)) ==> ValidateLogin(users, username, password) == Err(MissingCredentials)
    ensures Given(username) && Given(password) ==>
      var i := FindUser(users, username.value);
      && (i.None? || !CheckPassword(users[i.value], password.value) ==> ValidateLogin(users, username, password) == Err(BadCredentials))
      && (i.Some? && CheckPassword(users[i.value], password.value) && !users[i.value].isActive ==>
            ValidateLogin(users, username, password) == Err(Disabled))
      && (i.Some? && CheckPassword(users[i.value], password.value) && users[i.value].isActive ==>
            ValidateLogin(users, username, password) == Ok(users[i.value]))
  {
  }

  /** Both versions let in exactly the same users. */
  lemma LoginVersionsAgreeOnSuccess(users: seq<UserRow>, username: Option<string>, password: Option<string>)
    ensures ValidateLogin(users, username, password).Ok? <==> ValidateLoginAsWritten(users, username, password).Ok?
    ensures ValidateLogin(users, username, password).Ok? ==>
      ValidateLogin(users, username, password) == ValidateLoginAsWritten(users, username, password)
  {
  }

  /**
   * As written, a disabled account with the right password is told its
   * password is wrong: `ModelBackend` already refuses inactive users, so the
   * `is_active` branch is never reached.
   */
  lemma DisabledMessageUnreachable(users: seq<UserRow>, username: Option<string>, password: Option<string>)
    ensures ValidateLoginAsWritten(users, username, password) != Err(Disabled)
  {
  }

  /** The input that shows it: one inactive user logging in with the right password. */
  lemma DisabledUserExample()
    ensures var u := UserRow(1, "ann", "", "", "", Some("pw"), false, None, "", "", 0);
      && ValidateLoginAsWritten([u], Some("ann"), Some("pw")) == Err(BadCredentials)
      && ValidateLogin([u], Some("ann"), Some("pw")) == Err(Disabled)
  {
    var u := UserRow(1, "ann", "", "", "", Some("pw"), false, None, "", "", 0);
    assert FindUser([u], "ann") == Some(0);
  }

  // ---------------------------------------------------------------------------
  // Profile update and password change
  // ---------------------------------------------------------------------------

  const EmailTaken: string := "此邮箱已被使用"

  /** Another user (by primary key) already has this exact email. */
  predicate TakenByOther(users: seq<UserRow>, self: nat, email: string)
  {
    exists i :: 0 <= i < |users| && users[i].id != self && users[i].email == email
  }

  /** `validate_email` of the update serializer, by a scan of the table. */
  method ValidateEmail(users: seq<UserRow>, self: nat, email: string) returns (r: Result<string>)
    ensures r.Err? <==> TakenByOther(users, self, email)
    ensures r.Ok? ==> r.value == email
    ensures r.Err? ==> r.error == EmailTaken
  {
    var i := 0;
    while i < |users|
      invariant 0 <= i <= |users|
      invariant forall j :: 0 <= j < i ==> users[j].id == self || users[j].email != email
    {
      if users[i].id != self && users[i].email == email {
        return Err(EmailTaken);
      }
      i := i + 1;
    }
    return Ok(email);
  }

  /** The password change form. */
  datatype PasswordChange = PasswordChange(oldPassword: string, newPassword: string, newPasswordConfirm: string)

  const OldPasswordWrong: string := "旧密码错误"
  const NewConfirmMismatch: string := "新密码确认不匹配"

  /**
   * `is_valid` of the password change serializer: the field checks run
   * together (the old password must check; Django's validators on the new one
   * come in as `newPasswordOk`), and only without field errors does `validate`
   * compare the new password with its confirmation.
   */
  function ValidatePasswordChange(u: UserRow, c: PasswordChange, newPasswordOk: bool, validatorMessage: string): (r: Option<Errors>)
    ensures r.None? <==> CheckPassword(u, c.oldPassword) && newPasswordOk && c.newPassword == c.newPasswordConfirm
    ensures r.Some? && r.value.nonField != [] ==> r.value == NonField(NewConfirmMismatch)
    ensures !CheckPassword(u, c.oldPassword) ==> r.Some? && "old_password" in r.value.fields
  {
    var oldErrors := if CheckPassword(u, c.oldPassword) then map[] else map["old_password" := [OldPasswordWrong]];
    var fields := if newPasswordOk then oldErrors else oldErrors["new_password" := [validatorMessage]];
    if !CheckPassword(u, c.oldPassword) || !newPasswordOk then
      assert "old_password" in fields || "new_password" in fields;
      Some(Errors(fields, []))
    else if c.newPassword != c.newPasswordConfirm then Some(NonField(NewConfirmMismatch))
    else None
  }

  /** A mismatched confirmation is reported outside every field, and only when the fields pass. */
  lemma MismatchIsNonField(u: UserRow, c: PasswordChange, msg: string)
    requires CheckPassword(u, c.oldPassword) && c.newPassword != c.newPasswordConfirm
    ensures ValidatePasswordChange(u, c, true, msg) == Some(NonField(NewConfirmMismatch))
    ensures "old_password" !in ValidatePasswordChange(u, c, true, msg).value.fields
    ensures "new_password" !in ValidatePasswordChange(u, c, true, msg).value.fields
  {
  }

  // ---------------------------------------------------------------------------
  // The tables
  // ---------------------------------------------------------------------------

  /** The users and their profiles. */
  class Accounts {
    var users: seq<UserRow>
    /** Profiles by user id (the relation is one to one). */
    var profiles: map<nat, Profile>

    /** Users are numbered from 1 in order, user names are unique, and every profile belongs to an existing user. */
    ghost predicate Valid()
      reads this
    {
      (forall i :: 0 <= i < |users| ==> users[i].id == i + 1)
      && (forall i, j :: 0 <= i < j < |users| ==> users[i].username != users[j].username)
      && (forall k :: k in profiles ==> 1 <= k <= |users| && profiles[k].user == k)
    }

    constructor ()
      ensures Valid() && users == [] && profiles == map[]
    {
      users, profiles := [], map[];
    }

    /** `create`: one new user with the password set, and exactly one new profile for it. */
    method Create(r: Registration, today: int) returns (u: UserRow)
      requires Valid() && FindUser(users, r.username).None?
      modifies this
      ensures Valid()
      ensures u == NewUser(|old(users)| + 1, r, today)
      ensures users == old(users) + [u]
      ensures u.id !in old(profiles) && profiles == old(profiles)[u.id := DefaultProfile(u.id)]
    {
      var id := |users| + 1;
      u := UserRow(id, r.username, r.email, r.firstName, r.lastName, None, true, None, "", "", today);
      u := u.(password := Some(r.password));
      users := users + [u];
      profiles := profiles[id := DefaultProfile(id)];
    }

    /** `serializer.save()` of the password change: only the user's password changes. */
    method SetPassword(i: nat, password: string)
      requires Valid() && i < |users|
      modifies this
      ensures Valid()
      ensures users == old(users)[i := old(users)[i].(password := Some(password))] && profiles == old(profiles)
    {
      users := users[i := users[i].(password := Some(password))];
    }

    /** `serializer.save()` of a user update, or of an avatar: the row changes, its id and user name stay. */
    method SetUser(i: nat, u: UserRow)
      requires Valid() && i < |users| && u.id == users[i].id && u.username == users[i].username
      modifies this
      ensures Valid()
      ensures users == old(users)[i := u] && profiles == old(profiles)
    {
      users := users[i := u];
    }

    /** `UserProfile.objects.create` or a profile's `save()`. */
    method SetProfile(p: Profile)
      requires Valid() && 1 <= p.user <= |users|
      modifies this
      ensures Valid()
      ensures users == old(users) && profiles == old(profiles)[p.user := p]
    {
      profiles := profiles[p.user := p];
    }
  }
}
