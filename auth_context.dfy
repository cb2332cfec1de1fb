/**
 * The session store shared by the pages (frontend/src/contexts/AuthContext.tsx):
 * the current `user` and `isLoading`, set step by step by `initAuth`,
 * `login`, `register`, `logout`, `updateProfile` and `refreshUser` over the
 * service of `AuthService`, and the message a failure shows.
 */
module AuthContext {
  import opened Wrappers
  import opened ApiClient
  import AS = AuthService

  /** `a?.[0]` taken as a condition: the first entry of a field's error list, when it is not empty. */
  function FieldMessage(e: ErrorData, field: string): (r: Option<string>)
    ensures r.Some? ==> field in e.fields && |e.fields[field]| > 0 && r.value == e.fields[field][0] && r.value != ""
  {
    if field in e.fields && |e.fields[field]| > 0 && e.fields[field][0] != "" then Some(e.fields[field][0]) else None
  }

  /** `e.f1?.[0] || e.f2?.[0] || ... || e.message || fallback`. */
  function FirstMessage(e: ErrorData, fields: seq<string>, fallback: string): (r: string)
  {
    if fields == [] then (if Truthy(e.message) then e.message.value else fallback)
    else if FieldMessage(e, fields[0]).Some? then FieldMessage(e, fields[0]).value
    else FirstMessage(e, fields[1..], fallback)
  }

  /**
   * The message shown is that of the first field, in the given order, whose
   * first error is not empty; with none, the error's non-empty `message`; else
   * the fallback.
   */
  lemma {:induction false} FirstMessagePriority(e: ErrorData, fields: seq<string>, fallback: string, k: nat)
    requires k < |fields| && FieldMessage(e, fields[k]).Some?
    requires forall j :: 0 <= j < k ==> FieldMessage(e, fields[j]).None?
    ensures FirstMessage(e, fields, fallback) == e.fields[fields[k]][0]
  {
    if k > 0 {
      FirstMessagePriority(e, fields[1..], fallback, k - 1);
    }
  }

  lemma {:induction false} FirstMessageNoField(e: ErrorData, fields: seq<string>, fallback: string)
    requires forall j :: 0 <= j < |fields| ==> FieldMessage(e, fields[j]).None?
    ensures FirstMessage(e, fields, fallback) == (if Truthy(e.message) then e.message.value else fallback)
  {
    if fields != [] {
      FirstMessageNoField(e, fields[1..], fallback);
    }
  }

  const LoginFields: seq<string> := ["username", "password", "non_field_errors"]
  const RegisterFields: seq<string> := ["username", "email", "password", "non_field_errors"]
  const ProfileFields: seq<string> := ["email"]

  /** The message a failed login shows. */
  function LoginMessage(e: ErrorData): string
  {
    FirstMessage(e, LoginFields, AS.LoginFailed)
  }

  /** The message a failed registration shows. */
  function RegisterMessage(e: ErrorData): string
  {
    FirstMessage(e, RegisterFields, AS.RegisterFailed)
  }

  /** The message a failed profile update shows. */
  function ProfileMessage(e: ErrorData): string
  {
    FirstMessage(e, ProfileFields, "更新失败")
  }

  /**
   * The registration order puts `email` right after `username`: an error
   * without a `username` entry shows the email error before the password error;
   * otherwise registration and login show the same message when `email` has
   * no entry (and neither message differs in its fallback text).
   */
  lemma RegisterPutsEmailSecond(e: ErrorData)
    ensures FieldMessage(e, "username").Some? ==> RegisterMessage(e) == LoginMessage(e) == e.fields["username"][0]
    ensures FieldMessage(e, "username").None? && FieldMessage(e, "email").Some? ==> RegisterMessage(e) == e.fields["email"][0]
    ensures FieldMessage(e, "email").None? && Truthy(e.message) ==> RegisterMessage(e) == LoginMessage(e)
  {
    if FieldMessage(e, "username").None? && FieldMessage(e, "email").Some? {
      FirstMessagePriority(e, RegisterFields, AS.RegisterFailed, 1);
    }
    if FieldMessage(e, "email").None? && Truthy(e.message) {
      assert RegisterFields[1..][1..] == LoginFields[1..];
      FallbackUnused(e, LoginFields[1..], AS.RegisterFailed, AS.LoginFailed);
      if FieldMessage(e, "username").None? {
        assert RegisterMessage(e) == FirstMessage(e, RegisterFields[1..], AS.RegisterFailed);
        assert RegisterFields[1..][0] == "email";
        assert RegisterMessage(e) == FirstMessage(e, LoginFields[1..], AS.RegisterFailed);
        assert LoginMessage(e) == FirstMessage(e, LoginFields[1..], AS.LoginFailed);
      }
    }
  }

  /** With a non-empty `message`, the fallback is never shown. */
  lemma {:induction false} FallbackUnused(e: ErrorData, fields: seq<string>, a: string, b: string)
    requires Truthy(e.message)
    ensures FirstMessage(e, fields, a) == FirstMessage(e, fields, b)
  {
    if fields != [] {
      FallbackUnused(e, fields[1..], a, b);
    }
  }

  /** A login that fails with no body shows the default message, which is the service's own default. */
  lemma LoginWithoutBody<T>(reply: Reply<T>)
    requires reply.Failure? && reply.body.None?
    ensures LoginMessage(AS.Rethrown(reply, AS.LoginFailed)) == AS.LoginFailed
  {
    var e := AS.Rethrown(reply, AS.LoginFailed);
    assert e.fields == map[];
    FirstMessageNoField(e, LoginFields, AS.LoginFailed);
  }

  /** What a page reads from the store. */
  class AuthState {
    var user: Option<User>
    var isLoading: bool
    const storage: Storage

    constructor (st: Storage)
      ensures user == None && isLoading && storage == st
    {
      user, isLoading := None, true;
      storage := st;
    }

    /** The context's `isAuthenticated`: a user is set and a token is stored. */
    function IsAuthenticated(): (b: bool)
      reads this, storage
      ensures b <==> user.Some? && HasToken(storage.session)
    {
      user.Some? && storage.IsAuthenticated()
    }

    /**
     * `initAuth`: with a token and a readable local user, the user is the
     * local one and then the server's when the refresh succeeds (a failed
     * refresh keeps the local one); with a token and no readable user, the
     * service logs out; without a token nothing happens. Loading ends on every
     * path.
     */
    method InitAuth(profileReq: Request, profileNet: Net<User>, logoutReq: Request, logoutNet: Net<bool>)
      modifies this, storage
      ensures !isLoading
      ensures !HasToken(old(storage.session)) ==> user == old(user) && storage.session == old(storage.session)
      ensures HasToken(old(storage.session)) && AS.LocalUser(old(storage.session)).None? ==>
        user == old(user) && storage.session == Cleared
      ensures HasToken(old(storage.session)) && AS.LocalUser(old(storage.session)).Some? ==>
        var x := Call(old(storage.session), profileReq, profileNet);
        && (x.outcome.Success? ==>
              user == Some(x.outcome.data) && storage.session == x.after.(userInfo := Some(Json(x.outcome.data))))
        && (x.outcome.Failure? ==> user == AS.LocalUser(old(storage.session)) && storage.session == x.after)
    {
      if storage.IsAuthenticated() {
        var localUser := AS.LocalUser(storage.session);
        if localUser.Some? {
          user := localUser;
          var freshUser := AS.GetCurrentUser(storage, profileReq, profileNet);
          if freshUser.Returned? {
            user := Some(freshUser.value);
          }
        } else {
          var _ := AS.Logout(storage, logoutReq, logoutNet);
        }
      }
      isLoading := false;
    }

    /** `login` and `register`: the user is set from the reply; a failure leaves it, shows the chosen message and rethrows. */
    method SignIn(req: Request, net: Net<AS.LoginResponse>, fields: seq<string>, fallback: string)
      returns (thrown: Option<ErrorData>, shown: Option<string>)
      modifies this, storage
      ensures !isLoading
      ensures var x := Call(old(storage.session), req, net);
        && (x.outcome.Success? ==>
              user == Some(x.outcome.data.user) && thrown.None? && shown.None?
              && storage.session == AS.LoggedIn(x.after, x.outcome.data))
        && (x.outcome.Failure? ==>
              var e := AS.Rethrown(x.outcome, fallback);
              user == old(user) && thrown == Some(e) && shown == Some(FirstMessage(e, fields, fallback))
              && storage.session == x.after)
    {
      isLoading := true;
      var r := AS.SignIn(storage, req, net, fallback);
      if r.Returned? {
        user := Some(r.value.user);
        thrown, shown := None, None;
      } else {
        thrown := Some(r.error);
        shown := Some(FirstMessage(r.error, fields, fallback));
      }
      isLoading := false;
    }

    /** `login`. */
    method Login(req: Request, net: Net<AS.LoginResponse>) returns (thrown: Option<ErrorData>, shown: Option<string>)
      modifies this, storage
      ensures !isLoading
      ensures var x := Call(old(storage.session), req, net);
        && (x.outcome.Success? ==>
              user == Some(x.outcome.data.user) && thrown.None? && storage.session == AS.LoggedIn(x.after, x.outcome.data))
        && (x.outcome.Failure? ==>
              var e := AS.Rethrown(x.outcome, AS.LoginFailed);
              user == old(user) && thrown == Some(e) && shown == Some(LoginMessage(e)) && storage.session == x.after)
    {
      thrown, shown := SignIn(req, net, LoginFields, AS.LoginFailed);
    }

    /** `register`. */
    method Register(req: Request, net: Net<AS.LoginResponse>) returns (thrown: Option<ErrorData>, shown: Option<string>)
      modifies this, storage
      ensures !isLoading
      ensures var x := Call(old(storage.session), req, net);
        && (x.outcome.Success? ==>
              user == Some(x.outcome.data.user) && thrown.None? && storage.session == AS.LoggedIn(x.after, x.outcome.data))
        && (x.outcome.Failure? ==>
              var e := AS.Rethrown(x.outcome, AS.RegisterFailed);
              user == old(user) && thrown == Some(e) && shown == Some(RegisterMessage(e)) && storage.session == x.after)
    {
      thrown, shown := SignIn(req, net, RegisterFields, AS.RegisterFailed);
    }

    /** `logout`: the user is cleared whatever the service does (it does not throw), and so is the storage. */
    method Logout<T>(req: Request, net: Net<T>)
      modifies this, storage
      ensures user.None? && !isLoading && storage.session == Cleared && !IsAuthenticated()
    {
      isLoading := true;
      var _ := AS.Logout(storage, req, net);
      user := None;
      isLoading := false;
    }

    /** `updateProfile`: the returned user is set; a failure leaves the user, shows the chosen message and rethrows. */
    method UpdateProfile(req: Request, net: Net<User>) returns (thrown: Option<ErrorData>, shown: Option<string>)
      modifies this, storage
      ensures isLoading == old(isLoading)
      ensures var x := Call(old(storage.session), req, net);
        && (x.outcome.Success? ==>
              user == Some(x.outcome.data) && thrown.None? && storage.session == x.after.(userInfo := Some(Json(x.outcome.data))))
        && (x.outcome.Failure? ==>
              var e := AS.Rethrown(x.outcome, AS.UpdateFailed);
              user == old(user) && thrown == Some(e) && shown == Some(ProfileMessage(e)) && storage.session == x.after)
    {
      var r := AS.UpdateProfile(storage, req, net);
      if r.Returned? {
        user := Some(r.value);
        thrown, shown := None, None;
      } else {
        thrown := Some(r.error);
        shown := Some(ProfileMessage(r.error));
      }
    }

    /** `refreshUser`: with a token, the server's user replaces the current one; a failure leaves it and rethrows. */
    method RefreshUser(req: Request, net: Net<User>) returns (thrown: Option<ErrorData>)
      modifies this, storage
      ensures isLoading == old(isLoading)
      ensures !HasToken(old(storage.session)) ==> user == old(user) && thrown.None? && storage.session == old(storage.session)
      ensures HasToken(old(storage.session)) ==>
        var x := Call(old(storage.session), req, net);
        && (x.outcome.Success? ==>
              user == Some(x.outcome.data) && thrown.None? && storage.session == x.after.(userInfo := Some(Json(x.outcome.data))))
        && (x.outcome.Failure? ==>
              user == old(user) && thrown == Some(AS.Rethrown(x.outcome, AS.ProfileFailed)) && storage.session == x.after)
    {
      thrown := None;
      if storage.IsAuthenticated() {
        var r := AS.GetCurrentUser(storage, req, net);
        if r.Returned? {
          user := Some(r.value);
        } else {
          thrown := Some(r.error);
        }
      }
    }
  }
}
