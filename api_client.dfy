/**
 * The front end's HTTP client (frontend/src/services/api.ts): the three
 * browser-storage slots of a session, the request interceptor that attaches
 * the bearer token, and the response interceptor that answers a 401 with one
 * token refresh and one replay.
 *
 * Browser storage is modelled as its three keys (`access_token`,
 * `refresh_token`, `user_info`); the network is an oracle: for one call, the
 * first reply, the outcome of the refresh request, and the replay's reply.
 */
module ApiClient {
  import opened Wrappers

  /** The user record the back end returns; its other fields are carried opaquely and not modelled. */
  datatype User = User(id: int, username: string, email: string, firstName: string, lastName: string)

  /** What `user_info` holds: the `JSON.stringify` text of a user, or some other text `JSON.parse` cannot read back as one. */
  datatype UserText = Json(user: User) | Garbled(text: string)

  /** The session's storage keys; None is a key `getItem` returns null for. */
  datatype Session = Session(access: Option<string>, refresh: Option<string>, userInfo: Option<UserText>)

  /** The storage after `removeAuthToken`: all three keys removed. */
  const Cleared: Session := Session(None, None, None)

  /** A stored text used as a JavaScript condition: present and not the empty string. */
  predicate Truthy(t: Option<string>)
  {
    t.Some? && t.value != ""
  }

  /** The module's `isAuthenticated`: `!!getAuthToken()`. */
  predicate HasToken(s: Session)
  {
    Truthy(s.access)
  }

  /** The field errors and the `message` of an error body, as the back end sends them. */
  datatype ErrorData = ErrorData(fields: map<string, seq<string>>, message: Option<string>)

  /** A settled request: the response data of a 2xx reply, or an error with its HTTP status (None when no response came) and its body. */
  datatype Reply<T> = Success(data: T) | Failure(status: Option<int>, body: Option<ErrorData>)

  /** An outgoing request: its headers and whether the interceptor has marked it `_retry`. */
  datatype Request = Request(url: string, headers: map<string, string>, retry: bool)

  /** What the network does with one call: the first reply, the new access token the refresh request returns (None when it fails), and the replay's reply. */
  datatype Net<T> = Net(first: Reply<T>, refreshed: Option<string>, replay: Reply<T>)

  /** `Authorization: Bearer <token>`. */
  function Bearer(token: string): string
  {
    "Bearer " + token
  }

  /** The request interceptor: the stored access token, when there is one, becomes the `Authorization` header. */
  function Authorize(req: Request, s: Session): (r: Request)
    ensures r.url == req.url && r.retry == req.retry
    ensures HasToken(s) ==> r.headers == req.headers["Authorization" := Bearer(s.access.value)]
    ensures !HasToken(s) ==> r.headers == req.headers
  {
    if HasToken(s) then req.(headers := req.headers["Authorization" := Bearer(s.access.value)]) else req
  }

  /** One call through both interceptors: what it settles to, the storage after it, the requests sent, the refreshes made and whether the page was sent to `/login`. */
  datatype Exchange<T> = Exchange(outcome: Reply<T>, after: Session, sent: seq<Request>, refreshes: nat, redirected: bool)

  /** A 401 the response interceptor handles: the request is not yet marked `_retry`. */
  predicate Refreshable<T>(req: Request, reply: Reply<T>)
  {
    reply.Failure? && reply.status == Some(401) && !req.retry
  }

  /** A call made with `api`: the replay is the marked request with the new token, sent through the request interceptor again. */
  function Call<T>(s: Session, req: Request, net: Net<T>): (x: Exchange<T>)
  {
    var first := Authorize(req, s);
    if !Refreshable(req, net.first) then Exchange(net.first, s, [first], 0, false)
    else if !Truthy(s.refresh) then Exchange(net.first, Cleared, [first], 0, true)
    else
      match net.refreshed {
        case None => Exchange(net.first, Cleared, [first], 1, true)
        case Some(access) =>
          var after := s.(access := Some(access));
          var marked := first.(retry := true, headers := first.headers["Authorization" := Bearer(access)]);
          Exchange(net.replay, after, [first, Authorize(marked, after)], 1, false)
      }
  }

  /**
   * Every request sent carries `Bearer <access_token>` exactly when a token is
   * stored at the time; the replay carries the refreshed token.
   */
  lemma CallAuthorizes<T>(s: Session, req: Request, net: Net<T>)
    requires "Authorization" !in req.headers
    ensures var x := Call(s, req, net);
      && |x.sent| >= 1
      && ("Authorization" in x.sent[0].headers <==> HasToken(s))
      && (HasToken(s) ==> x.sent[0].headers["Authorization"] == Bearer(s.access.value))
      && (|x.sent| == 2 ==> x.sent[1].retry && x.sent[1].headers["Authorization"] == Bearer(net.refreshed.value))
  {
  }

  /**
   * The 401 rule: a first 401 with a stored refresh token is answered by one
   * refresh; when it succeeds only the access token is replaced and the marked
   * request is replayed, and whatever the replay gives is the call's outcome;
   * when it fails, or there is no refresh token, the three keys are removed,
   * the page goes to `/login` and the 401 is the outcome.
   */
  lemma CallOn401<T>(s: Session, req: Request, net: Net<T>)
    requires Refreshable(req, net.first)
    ensures var x := Call(s, req, net);
      && (Truthy(s.refresh) <==> x.refreshes == 1)
      && (Truthy(s.refresh) && net.refreshed.Some? ==>
            && x.after == s.(access := net.refreshed) && x.outcome == net.replay && |x.sent| == 2 && !x.redirected)
      && (!Truthy(s.refresh) || net.refreshed.None? ==>
            x.after == Cleared && x.outcome == net.first && |x.sent| == 1 && x.redirected)
  {
  }

  /** Anything but a first 401 passes through unchanged, with the storage untouched. */
  lemma CallPassesOthers<T>(s: Session, req: Request, net: Net<T>)
    requires !Refreshable(req, net.first)
    ensures var x := Call(s, req, net);
      x.outcome == net.first && x.after == s && |x.sent| == 1 && x.refreshes == 0 && !x.redirected
  {
  }

  /**
   * At most one refresh per request: a call makes at most one refresh and two
   * sends, and the replay is marked, so its own 401 is not refreshed again.
   */
  lemma AtMostOneRefresh<T>(s: Session, req: Request, net: Net<T>, net2: Net<T>)
    ensures var x := Call(s, req, net);
      && x.refreshes <= 1 && 1 <= |x.sent| <= 2
      && (|x.sent| == 2 ==> Call(x.after, x.sent[1], net2).refreshes == 0)
  {
  }

  /** The browser's storage as the client sees it. */
  class Storage {
    var session: Session

    constructor (initial: Session)
      ensures session == initial
    {
      session := initial;
    }

    /** `setAuthToken`. */
    method SetAuthToken(token: string)
      modifies this
      ensures session == old(session).(access := Some(token))
    {
      session := session.(access := Some(token));
    }

    /** `removeAuthToken`. */
    method RemoveAuthToken()
      modifies this
      ensures session == Cleared
    {
      session := Session(None, None, None);
    }

    /** `isAuthenticated`. */
    function IsAuthenticated(): (b: bool)
      reads this
      ensures b <==> session.access.Some? && session.access.value != ""
    {
      HasToken(session)
    }

    /** A request through `api`, step by step as the interceptors take it. */
    method Send<T>(req: Request, net: Net<T>) returns (outcome: Reply<T>, sent: seq<Request>, redirected: bool)
      modifies this
      ensures var x := Call(old(session), req, net);
        outcome == x.outcome && session == x.after && sent == x.sent && redirected == x.redirected
    {
      var first := Authorize(req, session);
      sent, redirected := [first], false;
      outcome := net.first;
      if outcome.Failure? && outcome.status == Some(401) && !req.retry {
        var marked := first.(retry := true);
        var refreshToken := session.refresh;
        if refreshToken.Some? && refreshToken.value != "" {
          if net.refreshed.Some? {
            var access := net.refreshed.value;
            SetAuthToken(access);
            marked := marked.(headers := marked.headers["Authorization" := Bearer(access)]);
            var replay := Authorize(marked, session);
            sent := sent + [replay];
            outcome := net.replay;
            return;
          }
          RemoveAuthToken();
          redirected := true;
        } else {
          RemoveAuthToken();
          redirected := true;
        }
      }
    }
  }
}
