/**
 * The rules of the chat API views (backend/chat/views.py): which rows each
 * endpoint sees, soft deletion, the message limit, and the connection test and
 * model detection with their local-service rule.
 */
module ChatViews {
  import opened Wrappers
  import opened Text
  import opened Sorting
  import opened ChatModels
  import ChatServices
  import ChatSerializers

  // ---------------------------------------------------------------------------
  // Conversations
  // ---------------------------------------------------------------------------

  function ByUpdated(c: Conversation): (k: Key)
  {
    Key(c.updatedAt, 0)
  }

  function ActiveOf(cs: seq<Conversation>, user: nat): (r: seq<Conversation>)
  {
    Filter(cs, (c: Conversation) => c.user == user && c.isActive)
  }

  /** The conversation list: the user's active conversations, most recently updated first. */
  function ConversationList(cs: seq<Conversation>, user: nat): (r: seq<Conversation>)
    ensures forall c :: c in r <==> c in cs && c.user == user && c.isActive
    ensures multiset(r) == multiset(ActiveOf(cs, user))
  {
    var a := ActiveOf(cs, user);
    var r := SortDesc(a, ByUpdated);
    assert forall c :: c in r <==> c in multiset(r);
    assert forall c :: c in a <==> c in multiset(a);
    r
  }

  /** The list is in the model's `-updated_at` order. */
  lemma ConversationListOrdered(cs: seq<Conversation>, user: nat)
    ensures SortedDesc(ConversationList(cs, user), ByUpdated)
  {
    SortDescSorted(ActiveOf(cs, user), ByUpdated);
  }

  /**
   * DELETE on a conversation: a soft delete. The row stays, marked inactive and
   * saved at `now`; its messages stay. False (a 404) when the user has no such
   * conversation, active or not.
   */
  method SoftDelete(db: ChatDb, user: nat, id: nat, now: int) returns (found: bool)
    requires db.Valid()
    modifies db
    ensures db.Valid()
    ensures found <==> old(ChatServices.FindConversation(db.conversations, id, user)).Some?
    ensures found ==> db.conversations == ChatServices.PutConversation(old(db.conversations),
      old(ChatServices.FindConversation(db.conversations, id, user)).value.(isActive := false, updatedAt := now))
    ensures !found ==> db.conversations == old(db.conversations)
    ensures db.messages == old(db.messages) && db.providers == old(db.providers)
    ensures db.models == old(db.models) && db.settings == old(db.settings)
  {
    var c := ChatServices.FindConversation(db.conversations, id, user);
    if c.None? {
      return false;
    }
    db.PutConversations(ChatServices.PutConversation(db.conversations, c.value.(isActive := false, updatedAt := now)));
    found := true;
  }

  /**
   * After a soft delete the conversation leaves the list but the detail view,
   * which does not filter on `is_active`, still finds it.
   */
  lemma SoftDeletedHiddenButRetrievable(cs: seq<Conversation>, c: Conversation, now: int)
    requires c in cs && forall d :: d in cs && d.id == c.id ==> d == c
    ensures var after := ChatServices.PutConversation(cs, c.(isActive := false, updatedAt := now));
      && (forall d :: d in ConversationList(after, c.user) ==> d.id != c.id)
      && ChatServices.FindConversation(after, c.id, c.user).Some?
  {
    var after := ChatServices.PutConversation(cs, c.(isActive := false, updatedAt := now));
    forall d | d in after && d.id == c.id ensures !d.isActive {
      var i :| 0 <= i < |after| && after[i] == d;
    }
    var k :| 0 <= k < |cs| && cs[k] == c;
    assert after[k] == c.(isActive := false, updatedAt := now);
  }

  /** Why a read of messages fails: no such conversation (404), or a negative limit that the query refuses. */
  datatype ReadError = NotFound | NegativeLimit

  /**
   * `get_conversation_messages`: the first `limit` (50 when absent) messages of
   * the user's conversation in time-stamp order.
   */
  function ConversationMessages(cs: seq<Conversation>, ms: seq<Message>, user: nat, id: nat, limit: Option<int>)
    : (r: Option<ReadError>)
  {
    if ChatServices.FindConversation(cs, id, user).None? then Some(NotFound)
    else if limit.Some? && limit.value < 0 then Some(NegativeLimit)
    else None
  }

  function LimitOf(limit: Option<int>): (n: int)
  {
    if limit.Some? then limit.value else 50
  }

  function ConversationPage(ms: seq<Message>, id: nat, limit: Option<int>): (r: seq<Message>)
    requires LimitOf(limit) >= 0
  {
    Take(ChatServices.MessagesOf(ms, id), LimitOf(limit))
  }

  /** The page holds at most `limit` messages, the oldest of the conversation, in order. */
  lemma ConversationPageFacts(ms: seq<Message>, id: nat, limit: Option<int>)
    requires LimitOf(limit) >= 0
    ensures var own := ChatServices.MessagesOf(ms, id);
      var r := ConversationPage(ms, id, limit);
      && |r| <= LimitOf(limit) && r == own[..|r|]
      && (|own| <= LimitOf(limit) ==> r == own)
      && forall m :: m in r ==> m in ms && m.conversation == id
  {
    var own := ChatServices.MessagesOf(ms, id);
    var r := ConversationPage(ms, id, limit);
    forall m | m in r ensures m in own {
      var i :| 0 <= i < |r| && r[i] == m;
      assert own[i] == m;
    }
  }

  // ---------------------------------------------------------------------------
  // Models
  // ---------------------------------------------------------------------------

  predicate OwnedBy(ps: seq<Provider>, m: AiModel, user: nat)
  {
    exists p :: p in ps && p.id == m.provider && p.user == user
  }

  /**
   * The model list: models of the user's providers, narrowed to one provider when
   * `provider_id` is given (`None` stands for an absent or empty parameter).
   */
  function ModelList(ms: seq<AiModel>, ps: seq<Provider>, user: nat, providerId: Option<nat>): (r: seq<AiModel>)
    ensures forall m :: m in r <==> m in ms && OwnedBy(ps, m, user) && (providerId.Some? ==> m.provider == providerId.value)
  {
    var owned := Filter(ms, (m: AiModel) => OwnedBy(ps, m, user));
    if providerId.Some? then Filter(owned, (m: AiModel) => m.provider == providerId.value) else owned
  }

  // ---------------------------------------------------------------------------
  // The local-service rule
  // ---------------------------------------------------------------------------

  /** The URL part of the views' rule; unlike the chat service's rule it ignores `host.docker.internal`. */
  predicate UrlLocal(url: string)
  {
    Contains(Lower(url), "localhost") || Contains(url, "127.0.0.1") || Contains(Lower(url), "ollama")
  }

  /** `not api_key or not api_key.strip()`. */
  predicate KeyMissing(key: string)
  {
    Blank(Python, key)
  }

  /** The views' `is_local_service`: a local URL, or no key at all. */
  predicate ViewLocal(url: string, key: string)
  {
    UrlLocal(url) || KeyMissing(key)
  }

  const LocalKey: string := "dummy-key-for-local-service"
  const RemoteNeedsKey: string := "远程API服务需要提供有效的API密钥"

  /** The views' key step as written: a local service gets the dummy key; a remote one needs a key. */
  function KeyStep(url: string, key: string): (r: Result<string>)
  {
    if ViewLocal(url, key) then Ok(LocalKey)
    else if KeyMissing(key) then Err(RemoteNeedsKey)
    else Ok(key)
  }

  /**
   * A missing key already makes the service local, so the refusal of a remote
   * service without a key is never reached, and every call goes out with some key.
   */
  lemma KeyStepNeverRefuses(url: string, key: string)
    ensures KeyStep(url, key).Ok?
    ensures KeyStep(url, key).value == (if UrlLocal(url) || KeyMissing(key) then LocalKey else key)
  {
  }

  /** The key step as evidently intended: locality by URL only, and a remote service without a key refused. */
  function KeyStepFixed(url: string, key: string): (r: Result<string>)
  {
    if UrlLocal(url) then Ok(LocalKey)
    else if KeyMissing(key) then Err(RemoteNeedsKey)
    else Ok(key)
  }

  /** Corrected, a remote service is called with its own, non-blank key or not at all. */
  lemma KeyStepFixedRefusesRemoteWithoutKey(url: string, key: string)
    ensures KeyStepFixed(url, key).Err? <==> !UrlLocal(url) && KeyMissing(key)
    ensures KeyStepFixed(url, key).Ok? && !UrlLocal(url) ==> KeyStepFixed(url, key).value == key && !Blank(Python, key)
  {
  }

  // ---------------------------------------------------------------------------
  // Model detection
  // ---------------------------------------------------------------------------

  /**
   * How `client.models.list()` ended. The library's timeout error is a kind of
   * connection error, so the views' connection arm, which comes first, handles it.
   */
  datatype ListOutcome =
    | Listed(ids: seq<string>)
    | ConnectionRefused(detail: string)
    | ListTimedOut(detail: string)
    | AuthRejected(detail: string)
    | ListFailed(detail: string)

  datatype DetectedModel = DetectedModel(modelId: string, modelName: string, description: string)

  /** A response of `detect_models`: HTTP status, `success`, `message` and `models` (empty on failure). */
  datatype DetectResponse = DetectResponse(status: nat, success: bool, message: string, models: seq<DetectedModel>)

  const BlankUrlMessage: string := "API地址未配置或为空，请先配置有效的API地址"
  const LocalFallbackMessage: string := "无法连接到本地服务，返回常见模型列表。请确保本地服务正在运行。"
  const UnknownProviderMessage: string := "AI提供商不存在"

  /** The models offered when a local service cannot be reached. */
  const FallbackModels: seq<DetectedModel> := [
    DetectedModel("llama2", "Llama 2", "本地Llama 2模型"),
    DetectedModel("llama2:7b", "Llama 2 7B", "本地Llama 2 7B模型"),
    DetectedModel("codellama", "Code Llama", "本地Code Llama模型")
  ]

  function Detected(ids: seq<string>): (r: seq<DetectedModel>)
    ensures |r| == |ids|
    ensures forall i :: 0 <= i < |ids| ==> r[i].modelId == ids[i] && r[i].modelName == ids[i]
  {
    if ids == [] then [] else [DetectedModel(ids[0], ids[0], "检测到的模型: " + ids[0])] + Detected(ids[1..])
  }

  /** What the listing call's outcome becomes, for a service that is, or is not, local. */
  function DetectReply(local: bool, outcome: ListOutcome): (r: DetectResponse)
  {
    match outcome
    case Listed(ids) =>
      DetectResponse(200, true, "成功检测到 " + NatToString(|ids|) + " 个模型", Detected(ids))
    case ConnectionRefused(d) =>
      if local then DetectResponse(200, true, LocalFallbackMessage, FallbackModels)
      else DetectResponse(400, false, "无法连接到API服务: " + d + "。请检查网络连接或稍后重试。", [])
    case ListTimedOut(d) =>
      if local then DetectResponse(200, true, LocalFallbackMessage, FallbackModels)
      else DetectResponse(400, false, "无法连接到API服务: " + d + "。请检查网络连接或稍后重试。", [])
    case AuthRejected(d) => DetectResponse(400, false, "API认证失败: " + d + "。请检查API密钥是否正确。", [])
    case ListFailed(d) => DetectResponse(400, false, "API调用失败: " + d, [])
  }

  function FindProvider(ps: seq<Provider>, id: nat, user: nat): (r: Option<Provider>)
    ensures r.Some? ==> r.value in ps && r.value.id == id && r.value.user == user
    ensures r.None? <==> !(exists p :: p in ps && p.id == id && p.user == user)
  {
    if ps == [] then None
    else if ps[0].id == id && ps[0].user == user then Some(ps[0])
    else
      assert forall p :: p in ps ==> p == ps[0] || p in ps[1..];
      FindProvider(ps[1..], id, user)
  }

  /**
   * `detect_models` as written: the provider must be the user's (a 400 from the
   * serializer), its URL must not be blank, and then, with the key step as
   * written, the listing's outcome decides.
   */
  function DetectModelsAsWritten(ps: seq<Provider>, user: nat, id: nat, outcome: ListOutcome): (r: DetectResponse)
    ensures r.success <==> r.status == 200
    ensures !r.success ==> r.models == []
    ensures r.success ==> var p := FindProvider(ps, id, user); p.Some? && !Blank(Python, p.value.apiBaseUrl)
  {
    var p := FindProvider(ps, id, user);
    if p.None? then DetectResponse(400, false, ChatSerializers.UnknownProviderError, [])
    else if Blank(Python, p.value.apiBaseUrl) then DetectResponse(400, false, BlankUrlMessage, [])
    else
      match KeyStep(p.value.apiBaseUrl, p.value.apiKey)
      case Err(e) => DetectResponse(400, false, e, [])
      case Ok(_) => DetectReply(ViewLocal(p.value.apiBaseUrl, p.value.apiKey), outcome)
  }

  /** `detect_models` with the key step as intended. */
  function DetectModels(ps: seq<Provider>, user: nat, id: nat, outcome: ListOutcome): (r: DetectResponse)
    ensures r.success <==> r.status == 200
    ensures !r.success ==> r.models == []
    ensures r.success ==> var p := FindProvider(ps, id, user); p.Some? && !Blank(Python, p.value.apiBaseUrl)
  {
    var p := FindProvider(ps, id, user);
    if p.None? then DetectResponse(400, false, ChatSerializers.UnknownProviderError, [])
    else if Blank(Python, p.value.apiBaseUrl) then DetectResponse(400, false, BlankUrlMessage, [])
    else
      match KeyStepFixed(p.value.apiBaseUrl, p.value.apiKey)
      case Err(e) => DetectResponse(400, false, e, [])
      case Ok(_) => DetectReply(UrlLocal(p.value.apiBaseUrl), outcome)
  }

  /**
   * Every detected id becomes a model whose id and name are that id, `count` is
   * their number, and a blank URL is refused before any call.
   */
  lemma DetectListing(ps: seq<Provider>, user: nat, id: nat, ids: seq<string>, outcome: ListOutcome)
    ensures var p := FindProvider(ps, id, user);
      p.Some? && Blank(Python, p.value.apiBaseUrl) ==>
        DetectModels(ps, user, id, outcome) == DetectResponse(400, false, BlankUrlMessage, [])
    ensures var p := FindProvider(ps, id, user);
      (p.Some? && !Blank(Python, p.value.apiBaseUrl) && KeyStepFixed(p.value.apiBaseUrl, p.value.apiKey).Ok?) ==>
        (var r := DetectModels(ps, user, id, Listed(ids));
         r.success && r.status == 200 && |r.models| == |ids|
         && forall i :: 0 <= i < |ids| ==> r.models[i].modelId == ids[i] && r.models[i].modelName == ids[i])
  {
  }

  /**
   * As written, an unreachable remote provider without a key is reported as a
   * success offering the local Llama models; corrected, it is refused with the
   * remote-key message before any call.
   */
  lemma DetectRemoteWithoutKey(ps: seq<Provider>, user: nat, id: nat, detail: string)
    requires var p := FindProvider(ps, id, user);
      p.Some? && !Blank(Python, p.value.apiBaseUrl) && !UrlLocal(p.value.apiBaseUrl) && p.value.apiKey == ""
    ensures DetectModelsAsWritten(ps, user, id, ConnectionRefused(detail))
      == DetectResponse(200, true, LocalFallbackMessage, FallbackModels)
    ensures DetectModels(ps, user, id, ConnectionRefused(detail)) == DetectResponse(400, false, RemoteNeedsKey, [])
  {
  }

  /** Corrected, the Llama fallback list is offered only for a service whose URL is local. */
  lemma DetectFallbackOnlyLocal(ps: seq<Provider>, user: nat, id: nat, outcome: ListOutcome)
    requires DetectModels(ps, user, id, outcome).models == FallbackModels
    ensures var p := FindProvider(ps, id, user);
      p.Some? && UrlLocal(p.value.apiBaseUrl) && (outcome.ConnectionRefused? || outcome.ListTimedOut? || outcome.Listed?)
  {
    var r := DetectModels(ps, user, id, outcome);
    assert |FallbackModels| == 3;
  }

  // ---------------------------------------------------------------------------
  // Connection test
  // ---------------------------------------------------------------------------

  /** How the test completion ended; `Answered(None)` is a response without choices. */
  datatype TestOutcome =
    | Answered(reply: Option<string>)
    | TestRefused(detail: string)
    | TestTimedOut(detail: string)
    | TestAuthRejected(detail: string)
    | BadRequest(detail: string)
    | TestFailed(detail: string)

  /** A response of `test_api_connection`. */
  datatype TestResponse = TestResponse(status: nat, success: bool, message: string, preview: Option<string>)

  const DefaultTestModel: string := "gpt-3.5-turbo"

  function ServiceType(local: bool): (r: string)
  {
    if local then "本地服务" else "远程API服务"
  }

  /**
   * `test_api_connection` after its serializer: the key must be a valid field
   * (non-blank, stripped); with the key step as written the outcome decides.
   */
  function TestApiConnection(key: string, url: string, outcome: TestOutcome): (r: TestResponse)
  {
    match ChatSerializers.ValidateApiKey(key)
    case Err(e) => TestResponse(400, false, e, None)
    case Ok(k) =>
      var local := ViewLocal(url, k);
      match KeyStep(url, k)
      case Err(e) => TestResponse(400, false, e, None)
      case Ok(_) =>
        match outcome
        case Answered(reply) =>
          TestResponse(200, true, ServiceType(local) + "连接测试成功",
                       Some(if reply.Some? then Take(reply.value, 50) else "No response"))
        case TestRefused(d) => TestResponse(400, false, "无法连接到API服务: " + d + "。请检查API地址是否正确，网络连接是否正常。", None)
        case TestTimedOut(d) => TestResponse(400, false, "无法连接到API服务: " + d + "。请检查API地址是否正确，网络连接是否正常。", None)
        case TestAuthRejected(d) =>
          if local then TestResponse(400, false, "本地服务认证失败: " + d + "。请确认本地服务（如Ollama）正在运行。", None)
          else TestResponse(400, false, "API认证失败: " + d + "。请检查API密钥是否正确。", None)
        case BadRequest(d) => TestResponse(400, false, "请求参数错误: " + d + "。请检查模型名称是否正确。", None)
        case TestFailed(d) => TestResponse(400, false, "API调用失败: " + d, None)
  }

  /**
   * A validated key is never blank, so here a service is local exactly when its
   * URL is; a blank key is refused by the serializer; a success previews at
   * most 50 characters of the reply; and a timeout is reported as a connection
   * failure, since the connection arm comes first.
   */
  lemma TestApiConnectionFacts(key: string, url: string, outcome: TestOutcome)
    ensures Blank(Python, key) ==> !TestApiConnection(key, url, outcome).success
    ensures var k := ChatSerializers.ValidateApiKey(key);
      k.Ok? ==> (ViewLocal(url, k.value) <==> UrlLocal(url))
    ensures var r := TestApiConnection(key, url, outcome);
      r.success ==> (r.status == 200 && outcome.Answered? && r.preview.Some? && |r.preview.value| <= 50)
    ensures outcome.TestTimedOut? ==> TestApiConnection(key, url, outcome) == TestApiConnection(key, url, TestRefused(outcome.detail))
  {
    var k := ChatSerializers.ValidateApiKey(key);
    if k.Ok? {
      TrimEmptyIffBlank(Python, k.value);
      TrimIdempotent(Python, key);
    }
  }
}
