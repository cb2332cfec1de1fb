/**
 * The user's profile page (frontend/src/components/UserProfile.tsx): the
 * check made before an avatar is uploaded, the loading flag and messages of
 * an upload's progress, and the message a failed password change shows.
 */
module UserProfile {
  import opened Wrappers
  import ApiClient
  import AuthContext
  import AccountsSerializers
  import AccountsViews

  /** A file picked in the browser: its MIME type and its size in bytes. */
  datatype PickedFile = PickedFile(name: string, mime: string, size: nat)

  /**
   * `beforeUpload`: JPEG or PNG only, and `size / 1024 / 1024 < 2`. Dividing by
   * a power of two is exact in floating point, so the second test is
   * `size < 2 MiB` on the integer size.
   */
  function BeforeUpload(f: PickedFile): (r: Result<PickedFile>)
    ensures r.Ok? <==> (f.mime == "image/jpeg" || f.mime == "image/png") && f.size < 2 * 1024 * 1024
    ensures r.Err? && f.mime != "image/jpeg" && f.mime != "image/png" ==> r.error == WrongType
    ensures r.Ok? ==> r.value == f
  {
    if f.mime != "image/jpeg" && f.mime != "image/png" then Err(WrongType)
    else if f.size >= 2 * 1024 * 1024 then Err(TooBig)
    else Ok(f)
  }

  const WrongType: string := "只能上传 JPG/PNG 格式的图片!"
  const TooBig: string := "图片大小不能超过 2MB!"

  /** What the page sends: the picked file as the server receives it. */
  function AsUpload(f: PickedFile): AccountsViews.Upload
  {
    AccountsViews.Upload(f.name, f.mime, f.size)
  }

  /**
   * The page is stricter than the server: whatever it lets through, the
   * server's checks accept; a GIF, or a file of exactly 2 MiB, passes the
   * server and is refused by the page.
   */
  lemma PageStricterThanServer(f: PickedFile)
    ensures BeforeUpload(f).Ok? ==> AccountsViews.CheckAvatar(Some(AsUpload(f))).Ok?
    ensures f.mime == "image/gif" && f.size <= AccountsViews.MaxAvatarSize ==>
      BeforeUpload(f).Err? && AccountsViews.CheckAvatar(Some(AsUpload(f))).Ok?
    ensures (f.mime == "image/jpeg" || f.mime == "image/png") && f.size == AccountsViews.MaxAvatarSize ==>
      BeforeUpload(f) == Err(TooBig) && AccountsViews.CheckAvatar(Some(AsUpload(f))).Ok?
  {
  }

  // ---------------------------------------------------------------------------
  // Password change message
  // ---------------------------------------------------------------------------

  const ChangeFailed: string := "修改密码失败"

  /** The body of a 400 as the server sends it: the field errors, and the others under `non_field_errors`. */
  function Wire(e: AccountsSerializers.Errors): (d: ApiClient.ErrorData)
    ensures d.message.None?
    ensures e.nonField == [] ==> d.fields == e.fields
    ensures e.nonField != [] ==> d.fields == e.fields["non_field_errors" := e.nonField]
  {
    ApiClient.ErrorData(if e.nonField == [] then e.fields else e.fields["non_field_errors" := e.nonField], None)
  }

  /** The message `handlePasswordChange` shows, as written: `old_password`, then `new_password`, then `message`. */
  function PasswordMessageAsWritten(e: ApiClient.ErrorData): (r: string)
    ensures AuthContext.FieldMessage(e, "old_password").Some? ==> r == AuthContext.FieldMessage(e, "old_password").value
    ensures AuthContext.FieldMessage(e, "old_password").None? && AuthContext.FieldMessage(e, "new_password").None? ==>
      r == (if ApiClient.Truthy(e.message) then e.message.value else ChangeFailed)
  {
    PasswordChains(e);
    AuthContext.FirstMessage(e, ["old_password", "new_password"], ChangeFailed)
  }

  /** The message as the other forms choose it: `non_field_errors` after the fields, where the server puts a mismatch. */
  function PasswordMessage(e: ApiClient.ErrorData): (r: string)
    ensures AuthContext.FieldMessage(e, "old_password").Some? ==> r == AuthContext.FieldMessage(e, "old_password").value
    ensures (AuthContext.FieldMessage(e, "old_password").None? && AuthContext.FieldMessage(e, "new_password").None?
             && AuthContext.FieldMessage(e, "non_field_errors").Some?) ==> r == AuthContext.FieldMessage(e, "non_field_errors").value
  {
    PasswordChains(e);
    AuthContext.FirstMessage(e, ["old_password", "new_password", "non_field_errors"], ChangeFailed)
  }

  /** How the two chains of fields above choose their message. */
  lemma PasswordChains(e: ApiClient.ErrorData)
    ensures var oldP, newP, nonField := AuthContext.FieldMessage(e, "old_password"), AuthContext.FieldMessage(e, "new_password"),
              AuthContext.FieldMessage(e, "non_field_errors");
      && (oldP.Some? ==> AuthContext.FirstMessage(e, ["old_password", "new_password"], ChangeFailed) == oldP.value)
      && (oldP.Some? ==> AuthContext.FirstMessage(e, ["old_password", "new_password", "non_field_errors"], ChangeFailed) == oldP.value)
      && (oldP.None? && newP.None? ==>
            AuthContext.FirstMessage(e, ["old_password", "new_password"], ChangeFailed)
            == (if ApiClient.Truthy(e.message) then e.message.value else ChangeFailed))
      && (oldP.None? && newP.None? && nonField.Some? ==>
            AuthContext.FirstMessage(e, ["old_password", "new_password", "non_field_errors"], ChangeFailed) == nonField.value)
  {
    var two, three := ["old_password", "new_password"], ["old_password", "new_password", "non_field_errors"];
    if AuthContext.FieldMessage(e, "old_password").Some? {
      AuthContext.FirstMessagePriority(e, two, ChangeFailed, 0);
      AuthContext.FirstMessagePriority(e, three, ChangeFailed, 0);
    } else if AuthContext.FieldMessage(e, "new_password").None? {
      AuthContext.FirstMessageNoField(e, two, ChangeFailed);
      if AuthContext.FieldMessage(e, "non_field_errors").Some? {
        AuthContext.FirstMessagePriority(e, three, ChangeFailed, 2);
      }
    }
  }

  /**
   * As written, a new password that does not match its confirmation (with
   * the right old password) shows the generic `修改密码失败`, not the server's
   * `新密码确认不匹配`; with `non_field_errors` in the chain it shows the
   * server's message.
   */
  lemma MismatchHiddenAsWritten(u: AccountsSerializers.UserRow, c: AccountsSerializers.PasswordChange, msg: string)
    requires AccountsSerializers.CheckPassword(u, c.oldPassword) && c.newPassword != c.newPasswordConfirm
    ensures var v := AccountsSerializers.ValidatePasswordChange(u, c, true, msg);
      && v.Some?
      && PasswordMessageAsWritten(Wire(v.value)) == ChangeFailed
      && PasswordMessage(Wire(v.value)) == AccountsSerializers.NewConfirmMismatch
  {
    AccountsSerializers.MismatchIsNonField(u, c, msg);
    var d := Wire(AccountsSerializers.NonField(AccountsSerializers.NewConfirmMismatch));
    assert d.fields == map["non_field_errors" := [AccountsSerializers.NewConfirmMismatch]];
    var fs := ["old_password", "new_password"];
    assert forall j :: 0 <= j < |fs| ==> AuthContext.FieldMessage(d, fs[j]).None?;
    AuthContext.FirstMessageNoField(d, fs, ChangeFailed);
    var gs := ["old_password", "new_password", "non_field_errors"];
    assert forall j :: 0 <= j < 2 ==> AuthContext.FieldMessage(d, gs[j]).None?;
    AuthContext.FirstMessagePriority(d, gs, ChangeFailed, 2);
  }

  /**
   * With `non_field_errors` in the chain, every refusal the server can give
   * shows one of the server's own messages, the old password's first.
   */
  lemma PasswordMessageFromServer(u: AccountsSerializers.UserRow, c: AccountsSerializers.PasswordChange, ok: bool, msg: string)
    requires msg != ""
    requires AccountsSerializers.ValidatePasswordChange(u, c, ok, msg).Some?
    ensures var shown := PasswordMessage(Wire(AccountsSerializers.ValidatePasswordChange(u, c, ok, msg).value));
      && shown in {AccountsSerializers.OldPasswordWrong, msg, AccountsSerializers.NewConfirmMismatch}
      && (!AccountsSerializers.CheckPassword(u, c.oldPassword) ==> shown == AccountsSerializers.OldPasswordWrong)
  {
    var v := AccountsSerializers.ValidatePasswordChange(u, c, ok, msg).value;
    var d := Wire(v);
    var gs := ["old_password", "new_password", "non_field_errors"];
    if !AccountsSerializers.CheckPassword(u, c.oldPassword) {
      AuthContext.FirstMessagePriority(d, gs, ChangeFailed, 0);
    } else if !ok {
      assert AuthContext.FieldMessage(d, gs[0]).None?;
      AuthContext.FirstMessagePriority(d, gs, ChangeFailed, 1);
    } else {
      MismatchHiddenAsWritten(u, c, msg);
    }
  }

  // ---------------------------------------------------------------------------
  // The page's state
  // ---------------------------------------------------------------------------

  /** A toast the page pops. */
  datatype Toast = Success(text: string) | Error(text: string)

  /** The upload's progress as the upload widget reports it; `url` is what the custom upload passed to `onSuccess`. */
  datatype UploadStatus = Uploading | DoneWith(url: Option<string>) | Failed | Other(status: string)

  const AvatarUploaded: string := "头像上传成功"
  const NoUrl: string := "头像上传失败：未获取到图片URL"
  const AvatarFailed: string := "头像上传失败"
  const PasswordChanged: string := "密码修改成功"

  class ProfilePage {
    var loading: bool
    var toasts: seq<Toast>
    /** How many times `loadUserStats` has been started. */
    var statsLoads: nat
    var passwordModalVisible: bool

    constructor ()
      ensures !loading && toasts == [] && statsLoads == 0 && !passwordModalVisible
    {
      loading, toasts, statsLoads, passwordModalVisible := false, [], 0, false;
    }

    /**
     * `handleAvatarChange`: uploading sets the flag; done or error clear it,
     * done with a URL reloading the statistics and praising, done without one
     * (or with an empty one) and error complaining; any other status does
     * nothing.
     */
    method HandleAvatarChange(s: UploadStatus)
      modifies this
      ensures passwordModalVisible == old(passwordModalVisible)
      ensures s.Uploading? ==> loading && toasts == old(toasts) && statsLoads == old(statsLoads)
      ensures s.DoneWith? && ApiClient.Truthy(s.url) ==>
        !loading && toasts == old(toasts) + [Success(AvatarUploaded)] && statsLoads == old(statsLoads) + 1
      ensures s.DoneWith? && !ApiClient.Truthy(s.url) ==>
        !loading && toasts == old(toasts) + [Error(NoUrl)] && statsLoads == old(statsLoads)
      ensures s.Failed? ==> !loading && toasts == old(toasts) + [Error(AvatarFailed)] && statsLoads == old(statsLoads)
      ensures s.Other? ==> loading == old(loading) && toasts == old(toasts) && statsLoads == old(statsLoads)
    {
      if s.Uploading? {
        loading := true;
        return;
      }
      if s.DoneWith? {
        if s.url.Some? && s.url.value != "" {
          statsLoads := statsLoads + 1;
          toasts := toasts + [Success(AvatarUploaded)];
        } else {
          toasts := toasts + [Error(NoUrl)];
        }
        loading := false;
      } else if s.Failed? {
        toasts := toasts + [Error(AvatarFailed)];
        loading := false;
      }
    }

    /**
     * `handlePasswordChange` given what the service settled to (None for
     * success): success closes the dialog and praises; a failure keeps it
     * open and shows the chosen message. Loading ends either way.
     */
    method HandlePasswordChange(thrown: Option<ApiClient.ErrorData>)
      modifies this
      ensures !loading && statsLoads == old(statsLoads)
      ensures thrown.None? ==> !passwordModalVisible && toasts == old(toasts) + [Success(PasswordChanged)]
      ensures thrown.Some? ==>
        passwordModalVisible == old(passwordModalVisible) && toasts == old(toasts) + [Error(PasswordMessageAsWritten(thrown.value))]
    {
      loading := true;
      if thrown.None? {
        passwordModalVisible := false;
        toasts := toasts + [Success(PasswordChanged)];
      } else {
        toasts := toasts + [Error(PasswordMessageAsWritten(thrown.value))];
      }
      loading := false;
    }
  }
}
