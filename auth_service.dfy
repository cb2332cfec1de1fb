/**
 * The front end's authentication service (frontend/src/services/authService.ts):
 * what each call leaves in browser storage and what it throws. Every call goes
 * through the client of `ApiClient`, so its 401 rule applies underneath.
 */
module AuthService {
  import opened Wrappers
  import opened ApiClient

  /** The body of a successful login or registration. */
  datatype LoginResponse = LoginResponse(access: string, refresh: string, user: User)

  /** A call's settlement: its value, or the value it throws. */
  datatype Settled<T> = Returned(value: T) | Thrown(error: ErrorData)

  const LoginFailed: string := "登录失败"
  const RegisterFailed: string := "注册失败"
  const ProfileFailed: string := "获取用户信息失败"
  const UpdateFailed: string := "更新用户信息失败"
  const RefreshFailed: string := "刷新令牌失败"

  /** `throw error.response?.data || { message: fallback }`. */
  function Rethrown<T>(reply: Reply<T>, fallback: string): (e: ErrorData)
    requires reply.Failure?
    ensures reply.body.Some? ==> e == reply.body.value
    ensures reply.body.None? ==> e == ErrorData(map[], Some(fallback))
  {
    if reply.body.Some? then reply.body.value else ErrorData(map[], Some(fallback))
  }

  /** `getLocalUser`: the stored user, null when `user_info` is missing, empty or not a user's JSON. */
  function LocalUser(s: Session): (u: Option<User>)
    ensures u.Some? <==> s.userInfo.Some? && s.userInfo.value.Json?
    ensures u.Some? ==> u.value == s.userInfo.value.user
  {
    match s.userInfo {
      case Some(Json(user)) => Some(user)
      case _ => None
    }
  }

  /** This service's `isAuthenticated`: a token and a readable user. */
  predicate Authenticated(s: Session)
  {
    HasToken(s) && LocalUser(s).Some?
  }

  /** A session after a successful login or registration: both tokens and the user stored. */
  function LoggedIn(s: Session, r: LoginResponse): (t: Session)
    ensures Authenticated(t) <==> r.access != ""
    ensures t.refresh == Some(r.refresh) && LocalUser(t) == Some(r.user)
  {
    Session(Some(r.access), Some(r.refresh), Some(Json(r.user)))
  }

  /**
   * The service's `isAuthenticated` asks more than the client's: a stored
   * token without a readable user counts for the client and not for the
   * service; with a readable user they agree.
   */
  lemma AuthenticatedStricter(s: Session)
    ensures Authenticated(s) ==> HasToken(s)
    ensures HasToken(s) && s.userInfo.None? ==> !Authenticated(s)
    ensures LocalUser(s).Some? ==> (Authenticated(s) <==> HasToken(s))
  {
  }

  /** `login` and `register`: store the session on success; on failure store nothing and throw the response's data or the default. */
  method SignIn(st: Storage, req: Request, net: Net<LoginResponse>, fallback: string) returns (r: Settled<LoginResponse>)
    modifies st
    ensures var x := Call(old(st.session), req, net);
      && (x.outcome.Success? ==> r == Returned(x.outcome.data) && st.session == LoggedIn(x.after, x.outcome.data))
      && (x.outcome.Failure? ==> r == Thrown(Rethrown(x.outcome, fallback)) && st.session == x.after)
  {
    var reply, _, _ := st.Send(req, net);
    if reply.Failure? {
      return Thrown(Rethrown(reply, fallback));
    }
    var data := reply.data;
    st.SetAuthToken(data.access);
    st.session := st.session.(refresh := Some(data.refresh));
    st.session := st.session.(userInfo := Some(Json(data.user)));
    r := Returned(data);
  }

  /** `login`. */
  method Login(st: Storage, req: Request, net: Net<LoginResponse>) returns (r: Settled<LoginResponse>)
    modifies st
    ensures var x := Call(old(st.session), req, net);
      && (x.outcome.Success? ==> r == Returned(x.outcome.data) && st.session == LoggedIn(x.after, x.outcome.data))
      && (x.outcome.Failure? ==> r == Thrown(Rethrown(x.outcome, LoginFailed)) && st.session == x.after)
  {
    r := SignIn(st, req, net, LoginFailed);
  }

  /** `register`: a registration logs the user in as a login does. */
  method Register(st: Storage, req: Request, net: Net<LoginResponse>) returns (r: Settled<LoginResponse>)
    modifies st
    ensures var x := Call(old(st.session), req, net);
      && (x.outcome.Success? ==> r == Returned(x.outcome.data) && st.session == LoggedIn(x.after, x.outcome.data))
      && (x.outcome.Failure? ==> r == Thrown(Rethrown(x.outcome, RegisterFailed)) && st.session == x.after)
  {
    r := SignIn(st, req, net, RegisterFailed);
  }

  /** `logout`: the server is told only when a refresh token is stored; the storage is cleared whatever it answers. */
  method Logout<T>(st: Storage, req: Request, net: Net<T>) returns (posted: bool)
    modifies st
    ensures posted <==> Truthy(old(st.session.refresh))
    ensures st.session == Cleared
  {
    posted := false;
    var refreshToken := st.session.refresh;
    if refreshToken.Some? && refreshToken.value != "" {
      var _, _, _ := st.Send(req, net);
      posted := true;
    }
    st.RemoveAuthToken();
  }

  /** `getCurrentUser` and `updateProfile`: the returned user overwrites `user_info`; a failure leaves the storage as the client left it. */
  method StoreUser(st: Storage, req: Request, net: Net<User>, fallback: string) returns (r: Settled<User>)
    modifies st
    ensures var x := Call(old(st.session), req, net);
      && (x.outcome.Success? ==> r == Returned(x.outcome.data) && st.session == x.after.(userInfo := Some(Json(x.outcome.data))))
      && (x.outcome.Failure? ==> r == Thrown(Rethrown(x.outcome, fallback)) && st.session == x.after)
  {
    var reply, _, _ := st.Send(req, net);
    if reply.Failure? {
      return Thrown(Rethrown(reply, fallback));
    }
    st.session := st.session.(userInfo := Some(Json(reply.data)));
    r := Returned(reply.data);
  }

  /** `getCurrentUser`. */
  method GetCurrentUser(st: Storage, req: Request, net: Net<User>) returns (r: Settled<User>)
    modifies st
    ensures var x := Call(old(st.session), req, net);
      && (x.outcome.Success? ==> r == Returned(x.outcome.data) && st.session == x.after.(userInfo := Some(Json(x.outcome.data))))
      && (x.outcome.Failure? ==> r == Thrown(Rethrown(x.outcome, ProfileFailed)) && st.session == x.after)
  {
    r := StoreUser(st, req, net, ProfileFailed);
  }

  /** `updateProfile`: the reply's `user` is the user stored. */
  method UpdateProfile(st: Storage, req: Request, net: Net<User>) returns (r: Settled<User>)
    modifies st
    ensures var x := Call(old(st.session), req, net);
      && (x.outcome.Success? ==> r == Returned(x.outcome.data) && st.session == x.after.(userInfo := Some(Json(x.outcome.data))))
      && (x.outcome.Failure? ==> r == Thrown(Rethrown(x.outcome, UpdateFailed)) && st.session == x.after)
  {
    r := StoreUser(st, req, net, UpdateFailed);
  }

  /**
   * `refreshToken`: without a refresh token it clears the storage and throws
   * the default (the `Error` it raises has no response); on success it stores
   * only the new access token; any failure clears the storage.
   */
  method RefreshToken(st: Storage, req: Request, net: Net<string>) returns (r: Settled<string>)
    modifies st
    ensures !Truthy(old(st.session.refresh)) ==> r == Thrown(ErrorData(map[], Some(RefreshFailed))) && st.session == Cleared
    ensures Truthy(old(st.session.refresh)) ==>
      var x := Call(old(st.session), req, net);
      && (x.outcome.Success? ==> r == Returned(x.outcome.data) && st.session == x.after.(access := Some(x.outcome.data)))
      && (x.outcome.Failure? ==> r == Thrown(Rethrown(x.outcome, RefreshFailed)) && st.session == Cleared)
  {
    var refreshToken := st.session.refresh;
    if refreshToken.None? || refreshToken.value == "" {
      st.RemoveAuthToken();
      return Thrown(ErrorData(map[], Some(RefreshFailed)));
    }
    var reply, _, _ := st.Send(req, net);
    if reply.Failure? {
      st.RemoveAuthToken();
      return Thrown(Rethrown(reply, RefreshFailed));
    }
    st.SetAuthToken(reply.data);
    r := Returned(reply.data);
  }

  /**
   * What a login or registration leaves behind, over the whole call: on
   * success the user is authenticated by this service's rule (given a
   * non-empty token); on failure neither a refresh token nor a user was
   * stored: each is what it was, or removed.
   */
  lemma SignInOutcome(s: Session, req: Request, net: Net<LoginResponse>)
    ensures var x := Call(s, req, net);
      && (x.outcome.Success? && x.outcome.data.access != "" ==> Authenticated(LoggedIn(x.after, x.outcome.data)))
      && (x.outcome.Failure? ==>
            (x.after.refresh == s.refresh || x.after.refresh.None?) && (x.after.userInfo == s.userInfo || x.after.userInfo.None?))
  {
    if Refreshable(req, net.first) {
      CallOn401(s, req, net);
    } else {
      CallPassesOthers(s, req, net);
    }
  }
}
