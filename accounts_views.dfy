/**
 * The account endpoints of the back end (backend/accounts/views.py): login and
 * registration with their token responses, profile and password updates,
 * settings that create the profile on first use, logout, avatar upload and
 * the user's statistics. Token minting, file storage and the clock are
 * parameters.
 */
module AccountsViews {
  import opened Wrappers
  import opened AccountsSerializers

  /** The two tokens `RefreshToken.for_user` mints. */
  datatype TokenPair = TokenPair(refresh: string, access: string)

  /** What an endpoint answers with. */
  datatype Body =
    | Tokens(note: Option<string>, refresh: string, access: string, user: UserRow)
    | Invalid(errors: Errors)
    | Done(message: string)
    | Failed(error: string)
    | AvatarSaved(message: string, avatarUrl: string)
    | Settings(notice: Option<string>, settings: Profile)
    | Updated(message: string, user: UserRow)
    | Stats(totalNews: nat, joinedDays: int, username: string, email: string, joinDate: int)

  datatype Response = Response(status: nat, body: Body)

  // ---------------------------------------------------------------------------
  // Login and registration
  // ---------------------------------------------------------------------------

  /**
   * The login view: the serializer's failure is a 400 with the message outside
   * any field; a success answers the refresh token, the access token and the user.
   */
  function Login(users: seq<UserRow>, username: Option<string>, password: Option<string>, tokens: TokenPair): (r: Response)
    ensures r.status == 200 <==> ValidateLoginAsWritten(users, username, password).Ok?
    ensures r.status == 200 ==> r.body == Tokens(None, tokens.refresh, tokens.access, ValidateLoginAsWritten(users, username, password).value)
    ensures r.status != 200 ==> r == Response(400, Invalid(NonField(ValidateLoginAsWritten(users, username, password).error)))
  {
    match ValidateLoginAsWritten(users, username, password) {
      case Ok(u) => Response(200, Tokens(None, tokens.refresh, tokens.access, u))
      case Err(m) => Response(400, Invalid(NonField(m)))
    }
  }

  /** A successful login answers an active user whose password checks, with both tokens. */
  lemma LoginAnswersTokens(users: seq<UserRow>, username: Option<string>, password: Option<string>, tokens: TokenPair)
    requires Login(users, username, password, tokens).status == 200
    ensures var b := Login(users, username, password, tokens).body;
      && b.Tokens? && b.refresh == tokens.refresh && b.access == tokens.access
      && b.user in users && b.user.isActive && CheckPassword(b.user, password.value) && b.user.username == username.value
  {
    var i := FindUser(users, username.value);
    assert i.Some?;
  }

  const UsernameTaken: string := "A user with that username already exists."
  const Registered: string := "注册成功"

  /** The registration form's field errors: the library's, plus the user name's uniqueness. */
  function RegistrationErrors(users: seq<UserRow>, r: Registration, libraryErrors: map<string, seq<string>>): (e: map<string, seq<string>>)
    ensures e == map[] <==> libraryErrors == map[] && FindUser(users, r.username).None?
  {
    if FindUser(users, r.username).Some? then
      var e := libraryErrors["username" := [UsernameTaken]];
      assert "username" in e;
      e
    else libraryErrors
  }

  /**
   * The register view: a valid form creates the user and its profile and
   * answers 201 with `注册成功`, both tokens and the user; otherwise 400 with the
   * serializer's errors and nothing written.
   */
  method Register(db: Accounts, r: Registration, libraryErrors: map<string, seq<string>>, today: int, tokens: TokenPair)
    returns (resp: Response)
    requires db.Valid()
    modifies db
    ensures db.Valid()
    ensures var fields := RegistrationErrors(old(db.users), r, libraryErrors);
      && (ValidateRegistration(r, fields).Ok? ==>
            var u := NewUser(|old(db.users)| + 1, r, today);
            && resp == Response(201, Tokens(Some(Registered), tokens.refresh, tokens.access, u))
            && db.users == old(db.users) + [u] && db.profiles == old(db.profiles)[u.id := DefaultProfile(u.id)])
      && (ValidateRegistration(r, fields).Err? ==>
            resp.status == 400 && resp.body.Invalid? && db.users == old(db.users) && db.profiles == old(db.profiles))
    ensures resp.status == 400 && RegistrationErrors(old(db.users), r, libraryErrors) == map[] ==>
      resp.body == Invalid(NonField(ConfirmMismatch))
  {
    var fields := RegistrationErrors(db.users, r, libraryErrors);
    var v := ValidateRegistration(r, fields);
    if v.Err? {
      var errors := if fields != map[] then Errors(fields, []) else NonField(v.error);
      return Response(400, Invalid(errors));
    }
    var u := db.Create(r, today);
    resp := Response(201, Tokens(Some(Registered), tokens.refresh, tokens.access, u));
  }

  // ---------------------------------------------------------------------------
  // Profile and password
  // ---------------------------------------------------------------------------

  /** A partial update of the user's own fields; None leaves a field as it is. */
  datatype UserPatch = UserPatch(
    email: Option<string>, firstName: Option<string>, lastName: Option<string>, bio: Option<string>, phone: Option<string>)

  function Pick<T>(v: Option<T>, current: T): T
  {
    if v.Some? then v.value else current
  }

  function Patched(u: UserRow, p: UserPatch): (v: UserRow)
    ensures v.id == u.id && v.username == u.username && v.password == u.password && v.avatar == u.avatar
  {
    u.(email := Pick(p.email, u.email), firstName := Pick(p.firstName, u.firstName), lastName := Pick(p.lastName, u.lastName),
       bio := Pick(p.bio, u.bio), phone := Pick(p.phone, u.phone))
  }

  const ProfileUpdated: string := "信息更新成功"

  /**
   * `update_profile` of user `i`: an email another user has is refused with
   * `此邮箱已被使用` under `email`, as are the library's field errors (formats
   * and lengths); otherwise only the given fields change.
   */
  method UpdateProfile(db: Accounts, i: nat, p: UserPatch, libraryErrors: map<string, seq<string>>) returns (resp: Response)
    requires db.Valid() && i < |db.users|
    modifies db
    ensures db.Valid() && db.profiles == old(db.profiles)
    ensures var taken := p.email.Some? && TakenByOther(old(db.users), old(db.users)[i].id, p.email.value);
      && (!taken && libraryErrors == map[] ==>
            var u := Patched(old(db.users)[i], p);
            resp == Response(200, Updated(ProfileUpdated, u)) && db.users == old(db.users)[i := u])
      && (taken || libraryErrors != map[] ==> resp.status == 400 && resp.body.Invalid? && db.users == old(db.users))
      && (taken ==> resp.body == Invalid(Errors(libraryErrors["email" := [EmailTaken]], [])))
  {
    var fields := libraryErrors;
    if p.email.Some? {
      var e := ValidateEmail(db.users, db.users[i].id, p.email.value);
      if e.Err? {
        fields := fields["email" := [e.error]];
        assert "email" in fields;
      }
    }
    if fields != map[] || libraryErrors != map[] {
      return Response(400, Invalid(Errors(fields, [])));
    }
    var u := Patched(db.users[i], p);
    db.SetUser(i, u);
    resp := Response(200, Updated(ProfileUpdated, u));
  }

  const PasswordChanged: string := "密码修改成功"

  /** `change_password` of user `i`: on a valid form only the password changes, to the new one. */
  method ChangePassword(db: Accounts, i: nat, c: PasswordChange, newPasswordOk: bool, validatorMessage: string)
    returns (resp: Response)
    requires db.Valid() && i < |db.users|
    modifies db
    ensures db.Valid() && db.profiles == old(db.profiles)
    ensures var v := ValidatePasswordChange(old(db.users)[i], c, newPasswordOk, validatorMessage);
      && (v.None? ==>
            resp == Response(200, Done(PasswordChanged)) && db.users == old(db.users)[i := old(db.users)[i].(password := Some(c.newPassword))])
      && (v.Some? ==> resp == Response(400, Invalid(v.value)) && db.users == old(db.users))
  {
    var v := ValidatePasswordChange(db.users[i], c, newPasswordOk, validatorMessage);
    if v.Some? {
      return Response(400, Invalid(v.value));
    }
    db.SetPassword(i, c.newPassword);
    resp := Response(200, Done(PasswordChanged));
  }

  /** After a successful change, the new password checks and the old one no longer does (unless they are equal). */
  lemma ChangedPasswordChecks(u: UserRow, c: PasswordChange)
    ensures CheckPassword(u.(password := Some(c.newPassword)), c.newPassword)
    ensures c.oldPassword != c.newPassword ==> !CheckPassword(u.(password := Some(c.newPassword)), c.oldPassword)
  {
  }

  // ---------------------------------------------------------------------------
  // Settings
  // ---------------------------------------------------------------------------

  const Themes: seq<string> := ["light", "dark"]
  const Languages: seq<string> := ["zh-cn", "en"]

  /** A partial settings update. */
  datatype SettingsPatch = SettingsPatch(
    theme: Option<string>, language: Option<string>, notificationsEnabled: Option<bool>, emailNotifications: Option<bool>)

  function NotAChoice(v: string): string
  {
    "\"" + v + "\" is not a valid choice."
  }

  /** The choice fields' errors of a settings update. */
  function SettingsErrors(p: SettingsPatch): (e: map<string, seq<string>>)
    ensures "theme" in e <==> p.theme.Some? && p.theme.value !in Themes
    ensures "language" in e <==> p.language.Some? && p.language.value !in Languages
    ensures e.Keys <= {"theme", "language"}
  {
    var t: map<string, seq<string>> := if p.theme.Some? && p.theme.value !in Themes then map["theme" := [NotAChoice(p.theme.value)]] else map[];
    if p.language.Some? && p.language.value !in Languages then t["language" := [NotAChoice(p.language.value)]] else t
  }

  function ApplySettings(q: Profile, p: SettingsPatch): (r: Profile)
    ensures r.user == q.user
  {
    q.(theme := Pick(p.theme, q.theme), language := Pick(p.language, q.language),
       notificationsEnabled := Pick(p.notificationsEnabled, q.notificationsEnabled),
       emailNotifications := Pick(p.emailNotifications, q.emailNotifications))
  }

  /** A profile whose choices are among the model's. */
  predicate ValidChoices(q: Profile)
  {
    q.theme in Themes && q.language in Languages
  }

  /** An update that passes validation keeps the choices valid. */
  lemma ApplyKeepsChoices(q: Profile, p: SettingsPatch)
    requires ValidChoices(q) && SettingsErrors(p) == map[]
    ensures ValidChoices(ApplySettings(q, p))
  {
    if p.theme.Some? {
      assert "theme" !in SettingsErrors(p);
    }
    if p.language.Some? {
      assert "language" !in SettingsErrors(p);
    }
  }

  /** The profile of user `uid`, created with the defaults when it is missing. */
  method EnsureProfile(db: Accounts, uid: nat) returns (q: Profile)
    requires db.Valid() && 1 <= uid <= |db.users|
    modifies db
    ensures db.Valid() && db.users == old(db.users)
    ensures q == (if uid in old(db.profiles) then old(db.profiles)[uid] else DefaultProfile(uid))
    ensures db.profiles == old(db.profiles)[uid := q]
  {
    if uid in db.profiles {
      q := db.profiles[uid];
      assert db.profiles == db.profiles[uid := q];
    } else {
      q := DefaultProfile(uid);
      db.SetProfile(q);
    }
  }

  /** `get_user_settings`: the user's settings, the defaults stored first when there were none. */
  method GetSettings(db: Accounts, uid: nat) returns (resp: Response)
    requires db.Valid() && 1 <= uid <= |db.users|
    modifies db
    ensures db.Valid() && db.users == old(db.users)
    ensures uid in db.profiles && resp == Response(200, Settings(None, db.profiles[uid]))
    ensures uid in old(db.profiles) ==> db.profiles == old(db.profiles)
    ensures uid !in old(db.profiles) ==> db.profiles == old(db.profiles)[uid := DefaultProfile(uid)]
  {
    var q := EnsureProfile(db, uid);
    resp := Response(200, Settings(None, q));
  }

  const SettingsUpdated: string := "配置更新成功"

  /**
   * `update_user_settings`: the profile is created first when missing, so a
   * refused update still leaves the default profile stored; an accepted one
   * changes only the given settings.
   */
  method UpdateSettings(db: Accounts, uid: nat, p: SettingsPatch) returns (resp: Response)
    requires db.Valid() && 1 <= uid <= |db.users|
    modifies db
    ensures db.Valid() && db.users == old(db.users)
    ensures var q := if uid in old(db.profiles) then old(db.profiles)[uid] else DefaultProfile(uid);
      && (SettingsErrors(p) == map[] ==>
            resp == Response(200, Settings(Some(SettingsUpdated), ApplySettings(q, p)))
            && db.profiles == old(db.profiles)[uid := ApplySettings(q, p)])
      && (SettingsErrors(p) != map[] ==>
            resp == Response(400, Invalid(Errors(SettingsErrors(p), []))) && db.profiles == old(db.profiles)[uid := q])
  {
    var q := EnsureProfile(db, uid);
    var errors := SettingsErrors(p);
    if errors != map[] {
      return Response(400, Invalid(Errors(errors, [])));
    }
    var updated := ApplySettings(q, p);
    db.SetProfile(updated);
    resp := Response(200, Settings(Some(SettingsUpdated), updated));
  }

  // ---------------------------------------------------------------------------
  // Logout
  // ---------------------------------------------------------------------------

  const LoggedOut: string := "注销成功"
  const LogoutFailed: string := "注销失败"

  /** The blacklisted refresh tokens. */
  class Blacklist {
    var tokens: set<string>

    constructor ()
      ensures tokens == {}
    {
      tokens := {};
    }

    /**
     * `logout`: a non-empty refresh token is parsed (`valid` says whether
     * `RefreshToken` accepts it) and blacklisted; without one nothing is
     * blacklisted and the answer is still a success. Only a token that fails
     * to parse gives 400.
     */
    method Logout(refresh: Option<string>, valid: bool) returns (resp: Response)
      modifies this
      ensures resp.status == 400 <==> Given(refresh) && !valid
      ensures resp.status == 400 ==> resp.body == Failed(LogoutFailed) && tokens == old(tokens)
      ensures resp.status != 400 ==> resp == Response(200, Done(LoggedOut))
      ensures Given(refresh) && valid ==> tokens == old(tokens) + {refresh.value}
      ensures !Given(refresh) ==> tokens == old(tokens)
    {
      if refresh.Some? && refresh.value != "" {
        if !valid {
          return Response(400, Failed(LogoutFailed));
        }
        tokens := tokens + {refresh.value};
      }
      resp := Response(200, Done(LoggedOut));
    }
  }

  // ---------------------------------------------------------------------------
  // Avatar
  // ---------------------------------------------------------------------------

  /** An uploaded file: its declared content type and its size in bytes. */
  datatype Upload = Upload(name: string, contentType: string, size: nat)

  const AvatarTypes: seq<string> := ["image/jpeg", "image/png", "image/gif"]
  const MaxAvatarSize: nat := 2 * 1024 * 1024

  const NoFile: string := "请选择头像文件"
  const BadType: string := "只支持 JPG、PNG、GIF 格式的图片"
  const TooLarge: string := "图片大小不能超过 2MB"

  /** The upload checks, in order: a file, an allowed type, at most 2 MiB. */
  function CheckAvatar(f: Option<Upload>): (r: Result<Upload>)
    ensures f.None? ==> r == Err(NoFile)
    ensures f.Some? && f.value.contentType !in AvatarTypes ==> r == Err(BadType)
    ensures f.Some? && f.value.contentType in AvatarTypes && f.value.size > MaxAvatarSize ==> r == Err(TooLarge)
    ensures r.Ok? <==> f.Some? && f.value.contentType in AvatarTypes && f.value.size <= MaxAvatarSize
    ensures r.Ok? ==> r.value == f.value
  {
    if f.None? then Err(NoFile)
    else if f.value.contentType !in AvatarTypes then Err(BadType)
    else if f.value.size > MaxAvatarSize then Err(TooLarge)
    else Ok(f.value)
  }

  /** The size limit is inclusive: exactly 2 MiB passes, one byte more does not. */
  lemma AvatarLimitInclusive(name: string, t: string)
    requires t in AvatarTypes
    ensures CheckAvatar(Some(Upload(name, t, 2097152))).Ok?
    ensures CheckAvatar(Some(Upload(name, t, 2097153))) == Err(TooLarge)
  {
  }

  /**
   * `upload_avatar` of user `i`: a file that passes the checks is stored as
   * the user's avatar under the name storage gives it (`stored`) and its
   * absolute URL answered; a failing save (`saved` false, with the error's
   * text) answers 500 and leaves the row; a refused file answers 400.
   */
  method UploadAvatar(db: Accounts, i: nat, f: Option<Upload>, stored: string, url: string, saved: bool, reason: string)
    returns (resp: Response)
    requires db.Valid() && i < |db.users|
    modifies db
    ensures db.Valid() && db.profiles == old(db.profiles)
    ensures CheckAvatar(f).Err? ==> resp == Response(400, Failed(CheckAvatar(f).error)) && db.users == old(db.users)
    ensures CheckAvatar(f).Ok? && !saved ==> resp == Response(500, Failed("头像上传失败: " + reason)) && db.users == old(db.users)
    ensures CheckAvatar(f).Ok? && saved ==>
      resp == Response(200, AvatarSaved("头像上传成功", url)) && db.users == old(db.users)[i := old(db.users)[i].(avatar := Some(stored))]
  {
    var c := CheckAvatar(f);
    if c.Err? {
      return Response(400, Failed(c.error));
    }
    if !saved {
      return Response(500, Failed("头像上传失败: " + reason));
    }
    db.SetUser(i, db.users[i].(avatar := Some(stored)));
    resp := Response(200, AvatarSaved("头像上传成功", url));
  }

  // ---------------------------------------------------------------------------
  // Statistics
  // ---------------------------------------------------------------------------

  const SecondsPerDay: int := 86400

  /** The calendar day (UTC) of a timestamp in seconds: `.date()`. */
  function Day(t: int): int
  {
    t / SecondsPerDay
  }

  /** `(today - join_date).days`: whole calendar days between joining and now. */
  function JoinedDays(joined: int, now: int): (d: int)
  {
    Day(now) - Day(joined)
  }

  /**
   * The count is in calendar days, not elapsed days: it is never negative for
   * a join in the past, and it is the elapsed whole days or one more.
   */
  lemma JoinedDaysBounds(joined: int, now: int)
    requires joined <= now
    ensures JoinedDays(joined, now) >= 0
    ensures (now - joined) / SecondsPerDay <= JoinedDays(joined, now) <= (now - joined) / SecondsPerDay + 1
  {
    var a, ra := joined / SecondsPerDay, joined % SecondsPerDay;
    var b, rb := now / SecondsPerDay, now % SecondsPerDay;
    assert joined == a * SecondsPerDay + ra && now == b * SecondsPerDay + rb;
    var e, re := (now - joined) / SecondsPerDay, (now - joined) % SecondsPerDay;
    assert now - joined == e * SecondsPerDay + re;
    assert (b - a - e) * SecondsPerDay == re + ra - rb;
    assert -SecondsPerDay < re + ra - rb < 2 * SecondsPerDay;
    assert 0 <= b - a - e <= 1;
  }

  /** `user_stats`: the news count, the calendar days since joining, and the user's name, email and join time. */
  function UserStats(u: UserRow, totalNews: nat, now: int): Response
  {
    Response(200, Stats(totalNews, JoinedDays(u.dateJoined, now), u.username, u.email, u.dateJoined))
  }
}
