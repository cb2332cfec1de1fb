/**
 * The chat service of the back end (backend/chat/services.py): the text rules
 * applied to model replies, the choice of provider and model, the fallback
 * replies, and the operations that create conversations and messages.
 */
module ChatServices {
  import opened Wrappers
  import opened Text
  import opened ChatModels

  // ---------------------------------------------------------------------------
  // Thinking blocks in a reply
  // ---------------------------------------------------------------------------

  const ThinkingOpen: string := "<thinking>"
  const ThinkingClose: string := "</thinking>"

  /**
   * `_extract_thinking_content`: the stripped text between the first
   * `<thinking>` and the nearest `</thinking>` after it, or "" when there is no
   * such pair (an opening with no closing after it cannot be matched from any
   * later opening either).
   */
  function ExtractThinking(content: string): (r: string)
    ensures !Contains(content, ThinkingOpen) || !Contains(content, ThinkingClose) ==> r == ""
  {
    match Find(content, ThinkingOpen)
    case None => ""
    case Some(i) =>
      var after := content[i + |ThinkingOpen|..];
      match Find(after, ThinkingClose)
      case None => ""
      case Some(j) =>
        ContainsIff(content, ThinkingOpen);
        ContainsIff(content, ThinkingClose);
        assert ThinkingClose <= content[i + |ThinkingOpen| + j..];
        Strip(after[..j])
  }

  /** A reply with one well-formed thinking block yields the block's stripped body. */
  lemma ExtractThinkingSpan(p: string, t: string, rest: string)
    requires '<' !in p && '<' !in t
    ensures ExtractThinking(p + ThinkingOpen + t + ThinkingClose + rest) == Strip(t)
  {
    var s := p + ThinkingOpen + t + ThinkingClose + rest;
    assert s == p + ThinkingOpen + (t + ThinkingClose + rest);
    FindAfter(p, ThinkingOpen, t + ThinkingClose + rest);
    var after := s[|p| + |ThinkingOpen|..];
    assert after == t + ThinkingClose + rest;
    FindAfter(t, ThinkingClose, rest);
    assert after[..|t|] == t;
  }

  /** `re.sub(r'<thinking>.*?</thinking>', '', s, flags=re.DOTALL)`. */
  function RemoveThinking(s: string): (r: string)
    ensures |r| <= |s|
  {
    RemoveSpans(s, ThinkingOpen, ThinkingClose)
  }

  /** The length of the longest prefix of `s` made of white space. */
  function SpaceRun(s: string): (n: nat)
    ensures n <= |s|
  {
    if s != [] && IsSpace(s[0]) then 1 + SpaceRun(s[1..]) else 0
  }

  /** The number of newlines in `s`. */
  function Newlines(s: string): (n: nat)
  {
    if s == [] then 0 else (if s[0] == '\n' then 1 else 0) + Newlines(s[1..])
  }

  /** The position just after the last newline of `s`, or 0 when it has none. */
  function AfterLastNewline(s: string): (n: nat)
    ensures n <= |s|
    ensures s != [] && s[0] == '\n' ==> n > 0
  {
    if s == [] then 0
    else if s[|s| - 1] == '\n' then |s|
    else AfterLastNewline(s[..|s| - 1])
  }

  /**
   * `re.sub(r'\n\s*\n\s*\n', '\n\n', s)`: a match starts at a newline whose run
   * of white space holds at least three newlines and, the stars being greedy,
   * ends at the last newline of that run; the scan then resumes after it.
   */
  function CollapseBlankLines(s: string): (r: string)
    decreases |s|
  {
    if s == [] then []
    else
      var run := s[..SpaceRun(s)];
      if s[0] == '\n' && Newlines(run) >= 3 then
        "\n\n" + CollapseBlankLines(s[AfterLastNewline(run)..])
      else [s[0]] + CollapseBlankLines(s[1..])
  }

  /** `_clean_content_from_thinking`. */
  function CleanThinking(content: string): (r: string)
    ensures Visible(r) == Visible(RemoveThinking(content))
  {
    CollapseBlankLinesKeepsVisible(RemoveThinking(content));
    StripKeepsVisible(CollapseBlankLines(RemoveThinking(content)));
    Strip(CollapseBlankLines(RemoveThinking(content)))
  }

  /** The white-space run at the start of a string is white space. */
  lemma {:induction false} SpaceRunBlank(s: string)
    ensures Blank(Python, s[..SpaceRun(s)])
    decreases |s|
  {
    if s != [] && IsSpace(s[0]) {
      SpaceRunBlank(s[1..]);
      var n := SpaceRun(s);
      assert forall i :: 1 <= i < n ==> s[..n][i] == s[1..][..n - 1][i - 1];
    }
  }

  /** A prefix has no more newlines than the whole. */
  lemma {:induction false} NewlinesPrefix(s: string, n: nat)
    requires n <= |s|
    ensures Newlines(s[..n]) <= Newlines(s)
    decreases n
  {
    if n > 0 {
      NewlinesPrefix(s[1..], n - 1);
      assert s[..n][1..] == s[1..][..n - 1];
    }
  }

  /** Collapsing blank lines deletes white space only. */
  lemma {:induction false} CollapseBlankLinesKeepsVisible(s: string)
    ensures Visible(CollapseBlankLines(s)) == Visible(s)
    decreases |s|
  {
    if s != [] {
      var run := s[..SpaceRun(s)];
      if s[0] == '\n' && Newlines(run) >= 3 {
        CollapseBlankLinesKeepsVisible(s[AfterLastNewline(run)..]);
        CollapseRunStep(s);
      } else {
        CollapseBlankLinesKeepsVisible(s[1..]);
        CollapseCharStep(s);
      }
    }
  }

  /** A collapsed run of blank lines keeps what is visible, when the rest after it does. */
  lemma CollapseRunStep(s: string)
    requires s != [] && s[0] == '\n' && Newlines(s[..SpaceRun(s)]) >= 3
    requires var e := AfterLastNewline(s[..SpaceRun(s)]);
      Visible(CollapseBlankLines(s[e..])) == Visible(s[e..])
    ensures Visible(CollapseBlankLines(s)) == Visible(s)
  {
    var run := s[..SpaceRun(s)];
    var e := AfterLastNewline(run);
    SpaceRunBlank(s);
    assert s == s[..e] + s[e..];
    assert s[..e] == run[..e];
    VisibleAppend(s[..e], s[e..]);
    VisibleBlank(s[..e]);
    VisibleAppend("\n\n", CollapseBlankLines(s[e..]));
  }

  /** A character kept as it is keeps what is visible, when the rest after it does. */
  lemma CollapseCharStep(s: string)
    requires s != [] && !(s[0] == '\n' && Newlines(s[..SpaceRun(s)]) >= 3)
    requires Visible(CollapseBlankLines(s[1..])) == Visible(s[1..])
    ensures Visible(CollapseBlankLines(s)) == Visible(s)
  {
    assert s == [s[0]] + s[1..];
    VisibleAppend([s[0]], s[1..]);
    VisibleAppend([s[0]], CollapseBlankLines(s[1..]));
  }

  /** Text with fewer than three newlines is left unchanged. */
  lemma {:induction false} CollapseBlankLinesFew(s: string)
    requires Newlines(s) < 3
    ensures CollapseBlankLines(s) == s
    decreases |s|
  {
    if s != [] {
      NewlinesPrefix(s, SpaceRun(s));
      assert Newlines(s[1..]) <= Newlines(s);
      CollapseBlankLinesFew(s[1..]);
      assert s == [s[0]] + s[1..];
    }
  }

  /** A reply with one well-formed thinking block is cleaned to what surrounds the block. */
  lemma CleanThinkingSpan(p: string, t: string, rest: string)
    requires '<' !in p && '<' !in t && !Contains(rest, ThinkingOpen)
    ensures CleanThinking(p + ThinkingOpen + t + ThinkingClose + rest) == Strip(CollapseBlankLines(p + rest))
  {
    RemoveSpansSpan(p, ThinkingOpen, t, ThinkingClose, rest);
    RemoveSpansAbsent(rest, ThinkingOpen, ThinkingClose);
  }

  /** A reply with no thinking block and no blank lines is only stripped. */
  lemma CleanThinkingPlain(content: string)
    requires !Contains(content, ThinkingOpen) && Newlines(content) < 3
    ensures CleanThinking(content) == Strip(content)
  {
    RemoveSpansAbsent(content, ThinkingOpen, ThinkingClose);
    CollapseBlankLinesFew(content);
  }

  // ---------------------------------------------------------------------------
  // Titles and history
  // ---------------------------------------------------------------------------

  /** The title of a conversation opened by a message: its first 20 characters, marked "..." when cut. */
  function AutoTitle(message: string): (r: string)
    ensures |message| <= 20 ==> r == message
    ensures |message| > 20 ==> |r| == 23 && r == message[..20] + "..."
  {
    if |message| > 20 then message[..20] + "..." else message
  }

  /** One entry of the history sent to the model. */
  datatype Turn = Turn(role: Role, content: string)

  /** The messages of one conversation, in table (time-stamp) order. */
  function MessagesOf(ms: seq<Message>, conversation: nat): (r: seq<Message>)
    ensures |r| <= |ms|
    ensures forall m :: m in r <==> m in ms && m.conversation == conversation
  {
    if ms == [] then []
    else
      var last := ms[|ms| - 1];
      MessagesOf(ms[..|ms| - 1], conversation) + (if last.conversation == conversation then [last] else [])
  }

  function Turns(ms: seq<Message>): (r: seq<Turn>)
    ensures |r| == |ms| && forall i :: 0 <= i < |ms| ==> r[i] == Turn(ms[i].role, ms[i].content)
  {
    if ms == [] then [] else [Turn(ms[0].role, ms[0].content)] + Turns(ms[1..])
  }

  const HistoryLimit: nat := 50

  /** `get_conversation_messages` as written: `order_by('timestamp')[:50]` keeps the OLDEST 50 messages. */
  function HistoryAsWritten(ms: seq<Message>, conversation: nat): (r: seq<Turn>)
    ensures |r| <= HistoryLimit
  {
    Turns(Take(MessagesOf(ms, conversation), HistoryLimit))
  }

  /** The history as intended: the most recent 50 messages, oldest first. */
  function History(ms: seq<Message>, conversation: nat): (r: seq<Turn>)
    ensures |r| <= HistoryLimit
  {
    var all := MessagesOf(ms, conversation);
    Turns(if |all| > HistoryLimit then all[|all| - HistoryLimit..] else all)
  }

  /** Once a conversation holds 51 messages, the history as written leaves out the newest one. */
  lemma HistoryAsWrittenOmitsNewest(earlier: Message, newest: Message)
    requires earlier.conversation == newest.conversation && earlier.content != newest.content
    ensures var ms := seq(HistoryLimit, _ => earlier) + [newest];
      Turn(newest.role, newest.content) !in HistoryAsWritten(ms, newest.conversation)
  {
    var ms := seq(HistoryLimit, _ => earlier) + [newest];
    var c := newest.conversation;
    MessagesOfAll(ms, c);
    assert Take(ms, HistoryLimit) == seq(HistoryLimit, _ => earlier);
  }

  /** A conversation whose messages are all of it is returned whole. */
  lemma {:induction false} MessagesOfAll(ms: seq<Message>, conversation: nat)
    requires forall i :: 0 <= i < |ms| ==> ms[i].conversation == conversation
    ensures MessagesOf(ms, conversation) == ms
    decreases |ms|
  {
    if ms != [] {
      MessagesOfAll(ms[..|ms| - 1], conversation);
      assert ms == ms[..|ms| - 1] + [ms[|ms| - 1]];
    }
  }

  /** The last message of the table, when it belongs to the conversation, is the last turn of its history. */
  lemma HistoryEndsWithNewest(ms: seq<Message>, conversation: nat)
    requires ms != [] && ms[|ms| - 1].conversation == conversation
    ensures var h := History(ms, conversation);
      h != [] && h[|h| - 1] == Turn(ms[|ms| - 1].role, ms[|ms| - 1].content)
  {
    var all := MessagesOf(ms, conversation);
    assert all == MessagesOf(ms[..|ms| - 1], conversation) + [ms[|ms| - 1]];
  }

  // ---------------------------------------------------------------------------
  // Choosing the provider and the model
  // ---------------------------------------------------------------------------

  function ProviderById(ps: seq<Provider>, id: nat): (r: Option<Provider>)
    ensures r.Some? ==> r.value in ps && r.value.id == id
    ensures r.None? ==> !HasProvider(ps, id)
  {
    if ps == [] then None else if ps[0].id == id then Some(ps[0]) else ProviderById(ps[1..], id)
  }

  function ModelById(ms: seq<AiModel>, id: nat): (r: Option<AiModel>)
    ensures r.Some? ==> r.value in ms && r.value.id == id
    ensures r.None? ==> !HasModel(ms, id)
  {
    if ms == [] then None else if ms[0].id == id then Some(ms[0]) else ModelById(ms[1..], id)
  }

  /** `AIProvider.objects.filter(user=user, is_active=True)`. */
  function ActiveProviders(ps: seq<Provider>, user: nat): (r: seq<Provider>)
  {
    Filter(ps, (p: Provider) => p.user == user && p.isActive)
  }

  /** `AIModel.objects.filter(provider=provider, is_active=True)`. */
  function ActiveModels(ms: seq<AiModel>, provider: nat): (r: seq<AiModel>)
  {
    Filter(ms, (m: AiModel) => m.provider == provider && m.isActive)
  }

  /** The provider `_get_ai_config` uses: the settings' default as it is, else the user's first active provider. */
  function ChosenProvider(s: ChatSettings, ps: seq<Provider>): (r: Option<Provider>)
    ensures s.defaultProvider.Some? ==> r == ProviderById(ps, s.defaultProvider.value)
    ensures s.defaultProvider.None? ==> (r.Some? ==> r.value in ps && r.value.user == s.user && r.value.isActive)
  {
    if s.defaultProvider.Some? then ProviderById(ps, s.defaultProvider.value)
    else FirstProvider(ActiveProviders(ps, s.user))
  }

  /**
   * The model `_get_ai_config` uses: the settings' default as it is (it is not
   * checked against the provider), else the chosen provider's first active model.
   */
  function ChosenModel(s: ChatSettings, ms: seq<AiModel>, provider: Option<Provider>): (r: Option<AiModel>)
    ensures s.defaultModel.Some? ==> r == ModelById(ms, s.defaultModel.value)
    ensures s.defaultModel.None? && provider.None? ==> r.None?
  {
    if s.defaultModel.Some? then ModelById(ms, s.defaultModel.value)
    else if provider.Some? then FirstModel(ActiveModels(ms, provider.value.id))
    else None
  }

  /** With no default provider, the choice is the first active provider of the user in the table's ordering. */
  lemma ChosenProviderIsFirstActive(s: ChatSettings, ps: seq<Provider>)
    requires s.defaultProvider.None?
    ensures var r := ChosenProvider(s, ps);
      (r.None? <==> forall p :: p in ps ==> !(p.user == s.user && p.isActive))
      && (r.Some? ==> forall q :: q in ps && q.user == s.user && q.isActive ==> !ProviderBefore(q, r.value))
  {
    var active := ActiveProviders(ps, s.user);
    if active == [] {
      forall p | p in ps ensures !(p.user == s.user && p.isActive) {
      }
    } else {
      assert active[0] in ps;
    }
  }

  /** With no default model, the choice is the chosen provider's first active model by name. */
  lemma ChosenModelIsFirstActive(s: ChatSettings, ms: seq<AiModel>, p: Provider)
    requires s.defaultModel.None?
    ensures var r := ChosenModel(s, ms, Some(p));
      (r.None? <==> forall m :: m in ms ==> !(m.provider == p.id && m.isActive))
      && (r.Some? ==> (r.value in ms && r.value.provider == p.id && r.value.isActive
          && forall m :: m in ms && m.provider == p.id && m.isActive ==> !StrLess(m.modelName, r.value.modelName)))
  {
    var active := ActiveModels(ms, p.id);
    if active == [] {
      forall m | m in ms ensures !(m.provider == p.id && m.isActive) {
      }
    } else {
      assert active[0] in ms;
    }
  }

  /**
   * A provider is local when its address names localhost, 127.0.0.1, Ollama or
   * the Docker host; every test but the address literal ignores letter case.
   */
  predicate IsLocalService(url: string)
  {
    Contains(Lower(url), "localhost") || Contains(url, "127.0.0.1")
    || Contains(Lower(url), "ollama") || Contains(Lower(url), "host.docker.internal")
  }

  const NoConfigError: string := "请先在AI配置页面配置服务提供商和模型"
  const NoUrlError: string := "AI服务提供商的API地址未配置或为空"
  const NoKeyError: string := "AI服务提供商的API密钥未配置或为空"
  const LocalServiceKey: string := "dummy-key-for-local-service"

  /** What `_get_ai_config` hands to the API call. */
  datatype AiConfig = AiConfig(
    apiBaseUrl: string, apiKey: string, modelId: string, maxTokens: int, providerName: string, modelName: string)

  /** `_get_ai_config`; a `ValueError` is an `Err` carrying its message. */
  function GetAiConfig(s: ChatSettings, ps: seq<Provider>, ms: seq<AiModel>): (r: Result<AiConfig>)
    ensures var p, m := ChosenProvider(s, ps), ChosenModel(s, ms, ChosenProvider(s, ps));
      && (r == Err(NoConfigError) <==> p.None? || m.None?)
      && (r == Err(NoUrlError) <==> p.Some? && m.Some? && Blank(Python, p.value.apiBaseUrl))
      && (r == Err(NoKeyError) <==> (p.Some? && m.Some? && !Blank(Python, p.value.apiBaseUrl)
            && !IsLocalService(p.value.apiBaseUrl) && Blank(Python, p.value.apiKey)))
      && (r.Err? ==> r.error in {NoConfigError, NoUrlError, NoKeyError})
      && (r.Ok? ==> (p.Some? && m.Some?
            && r.value.apiBaseUrl == p.value.apiBaseUrl && !Blank(Python, r.value.apiBaseUrl)
            && r.value.apiKey == (if IsLocalService(p.value.apiBaseUrl) then LocalServiceKey else p.value.apiKey)
            && !Blank(Python, r.value.apiKey)
            && r.value.modelId == m.value.modelId
            && r.value.maxTokens <= s.maxTokens && r.value.maxTokens <= m.value.maxTokens
            && (r.value.maxTokens == s.maxTokens || r.value.maxTokens == m.value.maxTokens)
            && r.value.providerName == p.value.name && r.value.modelName == m.value.modelName))
  {
    var provider := ChosenProvider(s, ps);
    var model := ChosenModel(s, ms, provider);
    if provider.None? || model.None? then Err(NoConfigError)
    else
      var p, m := provider.value, model.value;
      if Blank(Python, p.apiBaseUrl) then Err(NoUrlError)
      else
        var local := IsLocalService(p.apiBaseUrl);
        if !local && Blank(Python, p.apiKey) then Err(NoKeyError)
        else
          assert !Blank(Python, LocalServiceKey) by { assert !Space(Python, LocalServiceKey[0]); }
          Ok(AiConfig(p.apiBaseUrl, if local then LocalServiceKey else p.apiKey, m.modelId,
                      Min(s.maxTokens, m.maxTokens), p.name, m.modelName))
  }

  // ---------------------------------------------------------------------------
  // Calling the model and the fallback replies
  // ---------------------------------------------------------------------------

  /**
   * How the chat-completion request ended. `Completed(false, ..)` is a response
   * without a first choice or without its message.
   */
  datatype ApiOutcome =
    | Completed(hasMessage: bool, content: Option<string>, totalTokens: Option<int>)
    | ConnectionFailed
    | TimedOut
    | AuthenticationFailed
    | RateLimited
    | OtherFailure

  const EmptyReplyApology: string := "抱歉，我无法生成有效的回复，请重试。"
  const ConnectError: string := "无法连接到AI服务，请检查网络连接或稍后重试"
  const TimeoutError: string := "AI服务响应时间过长，可能网络不稳定"
  const AuthError: string := "AI服务认证失败，请检查API密钥配置"
  const RateLimitError: string := "请求过于频繁，请稍后重试"

  /** The reply given for any other failure, quoting the last message sent. */
  function UnavailableReply(question: string): (r: string)
  {
    "抱歉，AI服务暂时不可用。您的问题是：" + question + "。请稍后重试或联系管理员。"
  }

  /**
   * `_call_ai_api` as written. The openai library's timeout error is a kind of
   * connection error, so the connection arm, which comes first, catches it.
   */
  function CallAiApiAsWritten(outcome: ApiOutcome, question: string): (r: Result<(string, int)>)
    ensures outcome != TimedOut ==> r == CallAiApi(outcome, question)
    ensures outcome == TimedOut ==> r == CallAiApi(ConnectionFailed, question)
  {
    match outcome
    case TimedOut => Err(ConnectError)
    case _ => CallAiApi(outcome, question)
  }

  /**
   * `_call_ai_api` with each failure caught by its own arm. A reply without a
   * message raises inside the `try` and so ends in the catch-all arm, like any
   * unexpected failure.
   */
  function CallAiApi(outcome: ApiOutcome, question: string): (r: Result<(string, int)>)
    ensures r.Ok? ==> r.value.0 != ""
    ensures r.Err? <==> outcome in {ConnectionFailed, TimedOut, AuthenticationFailed, RateLimited}
  {
    match outcome
    case Completed(hasMessage, content, tokens) =>
      if !hasMessage then Ok((UnavailableReply(question), 0))
      else
        var text := if content.None? || content.value == "" then EmptyReplyApology else content.value;
        Ok((text, if tokens.Some? then tokens.value else 0))
    case ConnectionFailed => Err(ConnectError)
    case TimedOut => Err(TimeoutError)
    case AuthenticationFailed => Err(AuthError)
    case RateLimited => Err(RateLimitError)
    case OtherFailure => Ok((UnavailableReply(question), 0))
  }

  /** As written, a timeout is reported as a connection failure; the timeout message is never produced. */
  lemma TimeoutReportedAsConnection(question: string)
    ensures CallAiApiAsWritten(TimedOut, question) == Err(ConnectError)
    ensures forall o: ApiOutcome :: CallAiApiAsWritten(o, question) != Err(TimeoutError)
  {
    assert ConnectError != TimeoutError by { assert ConnectError[0] != TimeoutError[0]; }
  }

  /** Every failure has its own message, and a completed reply is never empty. */
  lemma CallAiApiMessages(outcome: ApiOutcome, question: string)
    ensures outcome == TimedOut ==> CallAiApi(outcome, question) == Err(TimeoutError)
    ensures outcome.Completed? && outcome.hasMessage && outcome.content.Some? && outcome.content.value != ""
      ==> CallAiApi(outcome, question) == Ok((outcome.content.value, if outcome.totalTokens.Some? then outcome.totalTokens.value else 0))
    ensures outcome.Completed? && outcome.hasMessage && (outcome.content.None? || outcome.content.value == "")
      ==> CallAiApi(outcome, question).value.0 == EmptyReplyApology
  {
  }

  const KeyAdvice: string := "🤖 **AI服务暂时不可用**\n\n**原因**: API密钥未配置或无效\n\n**解决方案**:\n1. 前往 **AI配置** 页面\n2. 配置有效的AI服务提供商和API密钥\n3. 推荐使用 [SiliconFlow](https://siliconflow.cn) (免费额度)\n\n**当前状态**: 聊天功能暂时使用离线模式，其他功能正常使用。"
  const ConfigAdvice: string := "🤖 **AI服务需要配置**\n\n请前往 **AI配置** 页面设置:\n- AI服务提供商 (如: SiliconFlow, OpenAI)  \n- API密钥和地址\n- 选择AI模型\n\n配置完成后即可正常使用智能聊天功能。"
  const NetworkAdvice: string := "🤖 **网络连接问题**\n\nAI服务暂时无法连接，可能原因:\n- 网络连接不稳定\n- AI服务提供商暂时不可用\n- 防火墙或代理设置问题\n- AI模型响应时间过长\n\n**建议**: 请稍后重试，或检查网络连接。系统已移除超时限制，会等待AI完成响应。"
  const GenericAdvicePrefix: string := "🤖 **AI服务暂时不可用**\n\n**状态**: 系统遇到临时问题\n**错误**: "
  const GenericAdviceSuffix: string := "\n\n**建议**: 请稍后重试，或前往AI配置页面检查设置。"

  predicate MentionsKey(e: string) { Contains(e, "API密钥") || Contains(e, "认证失败") }
  predicate MentionsConfig(e: string) { Contains(e, "配置") }
  predicate MentionsNetwork(e: string)
  {
    Contains(e, "网络") || Contains(e, "连接") || Contains(e, "超时") || Contains(e, "响应时间")
  }

  /** `_get_fallback_response`: advice chosen by the words of the error, in priority order. */
  function FallbackResponse(e: string): (r: string)
    ensures !MentionsKey(e) && !MentionsConfig(e) && !MentionsNetwork(e) ==> Contains(r, Take(e, 100))
  {
    if MentionsKey(e) then KeyAdvice
    else if MentionsConfig(e) then ConfigAdvice
    else if MentionsNetwork(e) then NetworkAdvice
    else
      Quoted(Take(e, 100));
      GenericAdvicePrefix + Take(e, 100) + GenericAdviceSuffix
  }

  /** The generic advice contains the text it quotes. */
  lemma Quoted(q: string)
    ensures Contains(GenericAdvicePrefix + q + GenericAdviceSuffix, q)
  {
    ContainsIff(q, q);
    assert q <= q[0..];
    ContainsAppend(q, GenericAdviceSuffix, q);
    ContainsAppend(q + GenericAdviceSuffix, GenericAdvicePrefix, q);
    assert (GenericAdvicePrefix + q) + GenericAdviceSuffix == GenericAdvicePrefix + (q + GenericAdviceSuffix);
  }

  /** An error naming the key or the credentials gets the key advice. */
  lemma KeyAdviceRule(e: string)
    requires MentionsKey(e)
    ensures FallbackResponse(e) == KeyAdvice
  {
  }

  /** An error naming the settings, but not the key, gets the settings advice. */
  lemma ConfigAdviceRule(e: string)
    requires !MentionsKey(e) && MentionsConfig(e)
    ensures FallbackResponse(e) == ConfigAdvice
  {
  }

  /** An error naming the network, but neither the key nor the settings, gets the network advice. */
  lemma NetworkAdviceRule(e: string)
    requires !MentionsKey(e) && !MentionsConfig(e) && MentionsNetwork(e)
    ensures FallbackResponse(e) == NetworkAdvice
  {
  }

  /** A word occurring at a known position is contained. */
  lemma HasWord(s: string, w: string, i: nat)
    requires i <= |s| && w <= s[i..]
    ensures Contains(s, w)
  {
    ContainsIff(s, w);
  }

  /** Text lacking the characters 密 and 认 names neither the key nor the credentials. */
  lemma NoKeyWords(s: string)
    requires '密' !in s && '认' !in s
    ensures !MentionsKey(s)
  {
    MissingCharNotContained(s, "API密钥", '密');
    MissingCharNotContained(s, "认证失败", '认');
  }

  /** Text lacking the characters 密, 认 and 配 names neither the key, the credentials nor the settings. */
  lemma NoKeyOrConfigWords(s: string)
    requires '密' !in s && '认' !in s && '配' !in s
    ensures !MentionsKey(s) && !MentionsConfig(s)
  {
    MissingCharNotContained(s, "API密钥", '密');
    MissingCharNotContained(s, "认证失败", '认');
    MissingCharNotContained(s, "配置", '配');
  }

  /** The missing-key error names the key. */
  lemma NoKeyErrorWords(e: string)
    requires e == NoKeyError
    ensures MentionsKey(e)
  {
    HasWord(e, "API密钥", 8);
  }

  /** The missing-key error leads to the key advice. */
  lemma NoKeyErrorAdvice(e: string)
    requires e == NoKeyError
    ensures FallbackResponse(e) == KeyAdvice
  {
    NoKeyErrorWords(e);
    KeyAdviceRule(e);
  }

  /** The authentication error names the refused credentials. */
  lemma AuthErrorWords(e: string)
    requires e == AuthError
    ensures MentionsKey(e)
  {
    HasWord(e, "认证失败", 4);
  }

  /** Refused credentials lead to the key advice. */
  lemma AuthErrorAdvice(e: string)
    requires e == AuthError
    ensures FallbackResponse(e) == KeyAdvice
  {
    AuthErrorWords(e);
    KeyAdviceRule(e);
  }

  /** The missing-provider error names the settings but not the key. */
  lemma NoConfigErrorWords(e: string)
    requires e == NoConfigError
    ensures !MentionsKey(e) && MentionsConfig(e)
  {
    HasWord(e, "配置", 5);
    NoKeyWords(e);
  }

  /** A missing provider or model leads to the settings advice. */
  lemma NoConfigErrorAdvice(e: string)
    requires e == NoConfigError
    ensures FallbackResponse(e) == ConfigAdvice
  {
    NoConfigErrorWords(e);
    ConfigAdviceRule(e);
  }

  /** The missing-address error names the settings but not the key. */
  lemma NoUrlErrorWords(e: string)
    requires e == NoUrlError
    ensures !MentionsKey(e) && MentionsConfig(e)
  {
    HasWord(e, "配置", 14);
    NoKeyWords(e);
  }

  /** A missing address leads to the settings advice. */
  lemma NoUrlErrorAdvice(e: string)
    requires e == NoUrlError
    ensures FallbackResponse(e) == ConfigAdvice
  {
    NoUrlErrorWords(e);
    ConfigAdviceRule(e);
  }

  lemma ConnectErrorNamesNetwork(e: string)
    requires e == ConnectError
    ensures MentionsNetwork(e)
  {
    HasWord(e, "网络", 13);
  }

  /** The connection error names only the network. */
  lemma ConnectErrorWords(e: string)
    requires e == ConnectError
    ensures !MentionsKey(e) && !MentionsConfig(e) && MentionsNetwork(e)
  {
    ConnectErrorNamesNetwork(e);
    NoKeyOrConfigWords(e);
  }

  /** A failed connection leads to the network advice. */
  lemma ConnectErrorAdvice(e: string)
    requires e == ConnectError
    ensures FallbackResponse(e) == NetworkAdvice
  {
    ConnectErrorWords(e);
    NetworkAdviceRule(e);
  }

  /** The timeout error names only the response time. */
  lemma TimeoutErrorWords(e: string)
    requires e == TimeoutError
    ensures !MentionsKey(e) && !MentionsConfig(e) && MentionsNetwork(e)
  {
    HasWord(e, "响应时间", 4);
    NoKeyOrConfigWords(e);
  }

  /** A slow reply leads to the network advice. */
  lemma TimeoutErrorAdvice(e: string)
    requires e == TimeoutError
    ensures FallbackResponse(e) == NetworkAdvice
  {
    TimeoutErrorWords(e);
    NetworkAdviceRule(e);
  }
  // ---------------------------------------------------------------------------
  // The service and its operations on the chat tables
  // ---------------------------------------------------------------------------

  /** The SiliconFlow settings a `ChatService` is constructed with. */
  datatype Service = Service(apiKey: string, baseUrl: string, modelName: string)

  /** `ChatService()`: construction fails when no SiliconFlow key is configured. */
  function NewService(apiKey: string, baseUrl: string, modelName: string): (r: Result<Service>)
    ensures r.Ok? <==> apiKey != ""
    ensures r.Ok? ==> r.value.apiKey == apiKey && r.value.baseUrl == baseUrl && r.value.modelName == modelName
  {
    if apiKey == "" then Err("SILICONFLOW_API_KEY not configured") else Ok(Service(apiKey, baseUrl, modelName))
  }

  const PlaceholderKey: string := "your-siliconflow-api-key-here"
  const DefaultProviderName: string := "默认SiliconFlow"
  const DefaultModelDescription: string := "默认Qwen模型"

  /** A key worth creating a default provider with: set, not the template's placeholder, and not blank. */
  predicate UsableKey(key: string)
  {
    key != "" && key != PlaceholderKey && !Blank(Python, key)
  }

  predicate HasProviders(ps: seq<Provider>, user: nat)
  {
    exists p :: p in ps && p.user == user
  }

  /** The provider `_create_default_provider` creates. */
  function DefaultProvider(svc: Service, user: nat, id: nat, now: int): (r: Provider)
  {
    Provider(id, user, DefaultProviderName, "siliconflow", svc.apiKey, svc.baseUrl, true, true, now)
  }

  /** The model `_create_default_provider` creates. */
  function DefaultModel(svc: Service, id: nat, provider: nat): (r: AiModel)
  {
    AiModel(id, provider, svc.modelName, svc.modelName, DefaultModelDescription, ModelDefaultMaxTokens, true)
  }

  /** Saving a provider for a user who has none changes no other row. */
  lemma SaveFirstProvider(ps: seq<Provider>, p: Provider)
    requires ProvidersUnique(ps) && !HasProviders(ps, p.user) && !HasProvider(ps, p.id)
    ensures !NameTaken(ClearDefaults(ps, p.user), p)
    ensures ClearDefaults(ps, p.user) == ps
  {
    ClearDefaultsUnchanged(ps, p.user);
    assert !NameTaken(ps, p);
  }

  lemma {:induction false} ClearDefaultsUnchanged(ps: seq<Provider>, user: nat)
    requires !HasProviders(ps, user)
    ensures ClearDefaults(ps, user) == ps
    decreases |ps|
  {
    if ps != [] {
      assert ps[0] in ps;
      assert !HasProviders(ps[1..], user) by {
        forall q | q in ps[1..] ensures q.user != user {
          assert q in ps;
        }
      }
      ClearDefaultsUnchanged(ps[1..], user);
      assert ps == [ps[0]] + ps[1..];
    }
  }

  /**
   * `_create_default_provider`: with a usable key and a user without providers,
   * a default SiliconFlow provider and its model are created and become the
   * defaults of the user's settings row; otherwise nothing changes.
   */
  method CreateDefaultProvider(db: ChatDb, svc: Service, user: nat, now: int)
    requires db.Valid()
    modifies db
    ensures db.Valid()
    ensures db.conversations == old(db.conversations) && db.messages == old(db.messages)
    ensures !(UsableKey(svc.apiKey) && !HasProviders(old(db.providers), user)) ==>
      (db.providers == old(db.providers) && db.models == old(db.models)
       && db.settings == old(db.settings) && db.nextId == old(db.nextId))
    ensures UsableKey(svc.apiKey) && !HasProviders(old(db.providers), user) ==>
      (var p := DefaultProvider(svc, user, old(db.nextId), now);
       var m := DefaultModel(svc, old(db.nextId) + 1, p.id);
       db.providers == Upsert(old(db.providers), p) && db.models == old(db.models) + [m]
       && db.nextId == old(db.nextId) + 2
       && (old(db.SettingsOf(user)).Some? ==>
             db.SettingsOf(user) == Some(old(db.SettingsOf(user)).value.(defaultProvider := Some(p.id), defaultModel := Some(m.id))))
       && (old(db.SettingsOf(user)).None? ==> db.settings == old(db.settings)))
  {
    if !(UsableKey(svc.apiKey) && !HasProviders(db.providers, user)) {
      return;
    }
    var p := DefaultProvider(svc, user, db.nextId, now);
    var existing := db.SettingsOf(user);
    SaveFirstProvider(db.providers, p);
    var saved := db.SaveProvider(p);
    var added, m := db.AddModel(DefaultModel(svc, 0, p.id));
    if existing.Some? {
      var s := existing.value.(defaultProvider := Some(p.id), defaultModel := Some(m.id));
      assert m in db.models && p in db.providers;
      db.PutSettings(s);
      SettingsOfUnique(db.settings, s);
    }
  }

  /** In a table with one row per user, the row just written is the one found. */
  lemma SettingsOfUnique(ss: seq<ChatSettings>, s: ChatSettings)
    requires SettingsUnique(ss) && s in ss
    ensures FindSettings(ss, s.user) == Some(s)
  {
  }

  /**
   * `get_or_create_chat_settings`: an existing row is returned as it is; a new
   * row gets 2048 tokens and the default prompt, after which a default provider
   * may be created for the user and the row is read again.
   */
  method GetOrCreateChatSettings(db: ChatDb, svc: Service, user: nat, now: int) returns (s: ChatSettings)
    requires db.Valid()
    modifies db
    ensures db.Valid()
    ensures db.conversations == old(db.conversations) && db.messages == old(db.messages)
    ensures db.SettingsOf(user) == Some(s)
    ensures old(db.SettingsOf(user)).Some? ==>
      (s == old(db.SettingsOf(user)).value && db.providers == old(db.providers)
       && db.models == old(db.models) && db.settings == old(db.settings) && db.nextId == old(db.nextId))
    ensures old(db.SettingsOf(user)).None? ==>
      (s.user == user && s.maxTokens == SettingsDefaultMaxTokens && s.systemPrompt == DefaultSystemPrompt
       && (s.defaultProvider.Some? <==> UsableKey(svc.apiKey) && !HasProviders(old(db.providers), user))
       && (s.defaultProvider.Some? <==> s.defaultModel.Some?))
  {
    var existing := db.SettingsOf(user);
    if existing.Some? {
      return existing.value;
    }
    var created := ChatSettings(user, None, None, SettingsDefaultMaxTokens, DefaultSystemPrompt);
    db.PutSettings(created);
    SettingsOfUnique(db.settings, created);
    CreateDefaultProvider(db, svc, user, now);
    s := db.SettingsOf(user).value;
  }

  /** `Conversation.objects.get(id=..., user=...)`: soft-deleted conversations are found too. */
  function FindConversation(cs: seq<Conversation>, id: nat, user: nat): (r: Option<Conversation>)
    ensures r.Some? ==> r.value in cs && r.value.id == id && r.value.user == user
    ensures r.None? ==> forall c :: c in cs ==> !(c.id == id && c.user == user)
  {
    if cs == [] then None
    else if cs[0].id == id && cs[0].user == user then Some(cs[0])
    else FindConversation(cs[1..], id, user)
  }

  /** The table with the row of `c`'s id replaced by `c`. */
  function PutConversation(cs: seq<Conversation>, c: Conversation): (r: seq<Conversation>)
    ensures |r| == |cs|
    ensures forall i :: 0 <= i < |cs| ==> r[i] == (if cs[i].id == c.id then c else cs[i])
  {
    if cs == [] then [] else [if cs[0].id == c.id then c else cs[0]] + PutConversation(cs[1..], c)
  }

  /** `create_conversation`: a new conversation, opened by a user message when one is given. */
  method CreateConversation(db: ChatDb, user: nat, title: string, firstMessage: string, now: int)
    returns (c: Conversation)
    requires db.Valid()
    modifies db
    ensures db.Valid()
    ensures c == Conversation(old(db.nextId), user, title, now, true)
    ensures db.conversations == old(db.conversations) + [c]
    ensures db.messages == old(db.messages)
      + (if firstMessage == "" then [] else [Message(old(db.nextId) + 1, c.id, UserRole, firstMessage, None, None, None, 0)])
    ensures db.providers == old(db.providers) && db.models == old(db.models) && db.settings == old(db.settings)
  {
    c := db.AddConversation(user, title, now);
    if firstMessage != "" {
      var m := db.AddMessage(Message(0, c.id, UserRole, firstMessage, None, None, None, 0));
    }
  }

  /** `delete_conversation`: the user's conversation and its messages are deleted; false when there is none. */
  method DeleteConversation(db: ChatDb, user: nat, id: nat) returns (deleted: bool)
    requires db.Valid()
    modifies db
    ensures db.Valid()
    ensures deleted <==> old(FindConversation(db.conversations, id, user)).Some?
    ensures deleted ==> (db.conversations == ConversationsWithout(old(db.conversations), id)
      && db.messages == MessagesNotIn(old(db.messages), id))
    ensures !deleted ==> db.conversations == old(db.conversations) && db.messages == old(db.messages)
    ensures db.providers == old(db.providers) && db.models == old(db.models) && db.settings == old(db.settings)
  {
    if FindConversation(db.conversations, id, user).None? {
      return false;
    }
    db.DeleteConversation(id);
    deleted := true;
  }

  /** `update_conversation_title`: the user's conversation gets the title and is saved; false when there is none. */
  method UpdateConversationTitle(db: ChatDb, user: nat, id: nat, title: string, now: int) returns (ok: bool)
    requires db.Valid()
    modifies db
    ensures db.Valid()
    ensures ok <==> old(FindConversation(db.conversations, id, user)).Some?
    ensures ok ==> db.conversations == PutConversation(old(db.conversations),
      old(FindConversation(db.conversations, id, user)).value.(title := title, updatedAt := now))
    ensures !ok ==> db.conversations == old(db.conversations)
    ensures db.messages == old(db.messages) && db.providers == old(db.providers)
    ensures db.models == old(db.models) && db.settings == old(db.settings)
  {
    var found := FindConversation(db.conversations, id, user);
    if found.None? {
      return false;
    }
    var c := found.value.(title := title, updatedAt := now);
    db.PutConversations(PutConversation(db.conversations, c));
    ok := true;
  }

  const NoConversationError: string := "会话不存在或无权限访问"

  /** How a send ended: a saved reply, a `ValueError` (answered with 400) or another exception (500). */
  datatype SendOutcome = Sent(conversationId: nat, message: Message) | Rejected(error: string) | Failed(error: string)

  /**
   * The part both send operations share: find the user's conversation (0 means
   * none was given, and a new one titled from the message is created), save the
   * user message, and get or create the settings.
   */
  method OpenTurn(db: ChatDb, svc: Service, user: nat, content: string, conversationId: nat, now: int)
    returns (found: bool, conv: Conversation, asked: Message, settings: ChatSettings)
    requires db.Valid()
    modifies db
    ensures db.Valid()
    ensures found <==> conversationId == 0 || old(FindConversation(db.conversations, conversationId, user)).Some?
    ensures !found ==> (db.conversations == old(db.conversations) && db.messages == old(db.messages)
      && db.providers == old(db.providers) && db.models == old(db.models)
      && db.settings == old(db.settings) && db.nextId == old(db.nextId))
    ensures found && conversationId != 0 ==>
      conv == old(FindConversation(db.conversations, conversationId, user)).value && db.conversations == old(db.conversations)
    ensures found && conversationId == 0 ==>
      (conv == Conversation(old(db.nextId), user, AutoTitle(content), now, true)
       && db.conversations == old(db.conversations) + [conv])
    ensures found ==> (conv in db.conversations && conv.user == user
      && asked == Message(asked.id, conv.id, UserRole, content, None, None, None, 0)
      && asked.id < db.nextId && db.messages == old(db.messages) + [asked]
      && db.SettingsOf(user) == Some(settings))
  {
    settings := ChatSettings(user, None, None, 0, "");
    asked := Message(0, 0, UserRole, content, None, None, None, 0);
    if conversationId != 0 {
      var c := FindConversation(db.conversations, conversationId, user);
      if c.None? {
        return false, Conversation(0, user, "", now, false), asked, settings;
      }
      conv := c.value;
    } else {
      conv := db.AddConversation(user, AutoTitle(content), now);
    }
    found := true;
    ghost var convs := db.conversations;
    asked := db.AddMessage(Message(0, conv.id, UserRole, content, None, None, None, 0));
    ghost var msgs := db.messages;
    settings := GetOrCreateChatSettings(db, svc, user, now);
    assert db.conversations == convs && db.messages == msgs;
  }

  /**
   * The system prompt `send_message_simple` sends: the settings' prompt, then
   * an instruction to show the reasoning inside the same tags that
   * `ExtractThinking` looks for.
   */
  function ThinkingPrompt(systemPrompt: string): (r: string)
    ensures systemPrompt <= r
    ensures Contains(r, ThinkingOpen) && Contains(r, ThinkingClose)
  {
    var tail := InstructionBody + ThinkingClose + InstructionTail;
    var r := systemPrompt + InstructionHead + ThinkingOpen + tail;
    ContainsIff(r, ThinkingOpen);
    assert ThinkingOpen <= r[|systemPrompt + InstructionHead|..];
    ContainsIff(r, ThinkingClose);
    assert ThinkingClose <= r[|systemPrompt + InstructionHead + ThinkingOpen + InstructionBody|..];
    r
  }

  const InstructionHead: string := "\n\n重要：在回答问题时，请使用以下格式来展示你的思考过程：\n\n"
  const InstructionBody: string := "\n这里是你的思考过程，包括：\n- 对问题的理解和分析\n- 思考解决方案的步骤\n- 考虑的因素和可能的问题\n- 选择最佳答案的原因\n"
  const InstructionTail: string := "\n\n然后再提供你的最终回答。思考过程会帮助用户更好地理解你的推理过程。"

  /** The assistant row `send_message_simple` saves for a full reply `text`. */
  function SimpleReply(conversation: nat, cfg: AiConfig, text: string, tokens: int): (r: Message)
    ensures r.role == AssistantRole && r.conversation == conversation && r.tokenCount == tokens
    ensures r.content == CleanThinking(text)
    ensures r.thinking.None? <==> ExtractThinking(text) == ""
    ensures r.thinking.Some? ==> r.thinking.value == ExtractThinking(text)
    ensures r.modelName == Some(cfg.modelName) && r.modelProvider == Some(cfg.providerName)
  {
    var thinking := ExtractThinking(text);
    Message(0, conversation, AssistantRole, CleanThinking(text), if thinking == "" then None else Some(thinking),
            Some(cfg.modelName), Some(cfg.providerName), tokens)
  }

  /** The conversation row saved again with `now` as its modification time. */
  method TouchConversation(db: ChatDb, c: Conversation, now: int)
    requires db.Valid() && c in db.conversations
    modifies db
    ensures db.Valid()
    ensures db.conversations == PutConversation(old(db.conversations), c.(updatedAt := now))
    ensures db.messages == old(db.messages) && db.providers == old(db.providers)
    ensures db.models == old(db.models) && db.settings == old(db.settings) && db.nextId == old(db.nextId)
  {
    db.PutConversations(PutConversation(db.conversations, c.(updatedAt := now)));
  }

  /** What `send_message_simple` answers once the configuration and the call are known. */
  function SimpleOutcome(cfg: Result<AiConfig>, call: Result<(string, int)>, conversation: nat, id: nat): (r: SendOutcome)
    ensures r.Rejected? <==> cfg.Err?
    ensures r.Failed? <==> cfg.Ok? && call.Err?
    ensures r.Sent? ==> (r.conversationId == conversation && r.message.id == id
      && r.message.content == CleanThinking(call.value.0) && r.message.tokenCount == call.value.1)
  {
    if cfg.Err? then Rejected(cfg.error)
    else if call.Err? then Failed(call.error)
    else Sent(conversation, SimpleReply(conversation, cfg.value, call.value.0, call.value.1).(id := id))
  }

  /** The request sent for a conversation: the system prompt, then the history. */
  function SimpleRequest(s: ChatSettings, ms: seq<Message>, conversation: nat): (r: seq<Turn>)
    ensures |r| <= HistoryLimit + 1 && r != [] && r[0] == Turn(SystemRole, ThinkingPrompt(s.systemPrompt))
  {
    [Turn(SystemRole, ThinkingPrompt(s.systemPrompt))] + History(ms, conversation)
  }

  /** The newest message of the conversation is the question the request ends with. */
  lemma SimpleRequestEndsWithQuestion(s: ChatSettings, ms: seq<Message>, conversation: nat)
    requires ms != [] && ms[|ms| - 1].conversation == conversation
    ensures var r := SimpleRequest(s, ms, conversation);
      r[|r| - 1] == Turn(ms[|ms| - 1].role, ms[|ms| - 1].content)
  {
    HistoryEndsWithNewest(ms, conversation);
  }

  /** The steps of `send_message_simple` after the user message is saved. */
  method AnswerSimple(db: ChatDb, conv: Conversation, settings: ChatSettings, now: int, outcome: ApiOutcome)
    returns (r: SendOutcome, request: seq<Turn>)
    requires db.Valid() && conv in db.conversations && db.messages != []
    requires db.messages[|db.messages| - 1].conversation == conv.id
    modifies db
    ensures db.Valid()
    ensures request == SimpleRequest(settings, old(db.messages), conv.id)
    ensures r == SimpleOutcome(GetAiConfig(settings, old(db.providers), old(db.models)),
      CallAiApi(outcome, old(db.messages)[|old(db.messages)| - 1].content), conv.id, old(db.nextId))
    ensures r.Sent? ==> (db.messages == old(db.messages) + [r.message]
      && db.conversations == PutConversation(old(db.conversations), conv.(updatedAt := now)))
    ensures !r.Sent? ==> db.messages == old(db.messages) && db.conversations == old(db.conversations)
    ensures db.providers == old(db.providers) && db.models == old(db.models) && db.settings == old(db.settings)
  {
    var ms, next := db.messages, db.nextId;
    SimpleRequestEndsWithQuestion(settings, ms, conv.id);
    request := SimpleRequest(settings, ms, conv.id);
    var cfg := GetAiConfig(settings, db.providers, db.models);
    var call := CallAiApi(outcome, request[|request| - 1].content);
    assert call == CallAiApi(outcome, ms[|ms| - 1].content);
    if cfg.Err? || call.Err? {
      r := SimpleOutcome(cfg, call, conv.id, next);
      return;
    }
    var reply := db.AddMessage(SimpleReply(conv.id, cfg.value, call.value.0, call.value.1));
    TouchConversation(db, conv, now);
    r := Sent(conv.id, reply);
    assert r == SimpleOutcome(cfg, call, conv.id, next);
  }

  /**
   * `send_message_simple`, with `outcome` standing for how the chat-completion
   * request ended. A missing conversation, and a configuration error, are
   * `ValueError`s; a failed call is another exception. The conversation and
   * the user message already saved stay saved when a later step fails.
   */
  method SendMessageSimple(db: ChatDb, svc: Service, user: nat, content: string, conversationId: nat, now: int,
                           outcome: ApiOutcome)
    returns (r: SendOutcome, request: seq<Turn>)
    requires db.Valid()
    modifies db
    ensures db.Valid()
    ensures !(conversationId == 0 || old(FindConversation(db.conversations, conversationId, user)).Some?) ==>
      (r == Rejected(NoConversationError) && db.conversations == old(db.conversations)
       && db.messages == old(db.messages) && db.settings == old(db.settings))
    ensures conversationId == 0 || old(FindConversation(db.conversations, conversationId, user)).Some? ==>
      (db.SettingsOf(user).Some? &&
       var cfg := GetAiConfig(db.SettingsOf(user).value, db.providers, db.models);
       var call := CallAiApi(outcome, content);
       && (r.Sent? ==> (r == SimpleOutcome(cfg, call, r.conversationId, r.message.id)
             && db.messages != [] && db.messages[|db.messages| - 1] == r.message))
       && (!r.Sent? ==> r == SimpleOutcome(cfg, call, 0, 0))
       && request != [] && request[0] == Turn(SystemRole, ThinkingPrompt(db.SettingsOf(user).value.systemPrompt))
       && request[|request| - 1] == Turn(UserRole, content))
  {
    var found, conv, asked, settings := OpenTurn(db, svc, user, content, conversationId, now);
    if !found {
      return Rejected(NoConversationError), [];
    }
    ghost var ms, ps, mds, st, next := db.messages, db.providers, db.models, db.settings, db.nextId;
    assert FindSettings(st, user) == Some(settings);
    assert ms[|ms| - 1] == asked;
    r, request := AnswerSimple(db, conv, settings, now, outcome);
    assert db.settings == st && db.providers == ps && db.models == mds;
    assert db.SettingsOf(user) == Some(settings);
    SimpleTurn(r, request, settings, ps, mds, ms, db.messages, conv.id, content, outcome, next);
  }

  /** What the answer of a turn says, once the question is the newest message of the conversation. */
  lemma SimpleTurn(r: SendOutcome, request: seq<Turn>, settings: ChatSettings, ps: seq<Provider>, mds: seq<AiModel>,
                   ms: seq<Message>, after: seq<Message>, conversation: nat, content: string, outcome: ApiOutcome, next: nat)
    requires ms != [] && ms[|ms| - 1].conversation == conversation
    requires ms[|ms| - 1].role == UserRole && ms[|ms| - 1].content == content
    requires request == SimpleRequest(settings, ms, conversation)
    requires r == SimpleOutcome(GetAiConfig(settings, ps, mds), CallAiApi(outcome, content), conversation, next)
    requires r.Sent? ==> after == ms + [r.message]
    ensures var cfg, call := GetAiConfig(settings, ps, mds), CallAiApi(outcome, content);
      && (r.Sent? ==> (r == SimpleOutcome(cfg, call, r.conversationId, r.message.id)
            && after != [] && after[|after| - 1] == r.message))
      && (!r.Sent? ==> r == SimpleOutcome(cfg, call, 0, 0))
      && request != [] && request[0] == Turn(SystemRole, ThinkingPrompt(settings.systemPrompt))
      && request[|request| - 1] == Turn(UserRole, content)
  {
    SimpleRequestEndsWithQuestion(settings, ms, conversation);
  }

  /** A conversation appended to the table is found by its id and user. */
  lemma FindConversationLast(cs: seq<Conversation>, c: Conversation)
    ensures FindConversation(cs + [c], c.id, c.user).Some?
  {
    assert c in cs + [c];
  }
  // ---------------------------------------------------------------------------
  // `send_message`
  // ---------------------------------------------------------------------------

  /** What Python says when a dictionary of seven keys is unpacked into two names. */
  const UnpackError: string := "too many values to unpack (expected 2)"

  /** A text without the first characters of any cause word names no known cause. */
  lemma NoCauseWords(s: string)
    requires '密' !in s && '认' !in s && '配' !in s && '网' !in s && '连' !in s && '超' !in s && '响' !in s
    ensures !MentionsKey(s) && !MentionsConfig(s) && !MentionsNetwork(s)
  {
    NoKeyOrConfigWords(s);
    MissingCharNotContained(s, "网络", '网');
    MissingCharNotContained(s, "连接", '连');
    MissingCharNotContained(s, "超时", '超');
    MissingCharNotContained(s, "响应时间", '响');
  }

  /** A short error that names no known cause is quoted whole by the generic advice. */
  lemma GenericAdviceQuotes(e: string)
    requires !MentionsKey(e) && !MentionsConfig(e) && !MentionsNetwork(e) && |e| <= 100
    ensures FallbackResponse(e) == GenericAdvicePrefix + e + GenericAdviceSuffix
  {
    assert Take(e, 100) == e;
  }

  predicate Ascii(s: string)
  {
    forall i :: 0 <= i < |s| ==> s[i] < 128 as char
  }

  /** The cause words are all Chinese, so an ASCII text names no known cause. */
  lemma AsciiNamesNoCause(s: string)
    requires Ascii(s)
    ensures !MentionsKey(s) && !MentionsConfig(s) && !MentionsNetwork(s)
  {
    NoCauseWords(s);
  }

  lemma UnpackErrorWords(e: string)
    requires e == UnpackError
    ensures !MentionsKey(e) && !MentionsConfig(e) && !MentionsNetwork(e) && |e| <= 100
  {
    assert Ascii(e);
    AsciiNamesNoCause(e);
  }

  /** The unpacking error names no known cause, so the generic advice quotes it whole. */
  lemma UnpackErrorAdvice(e: string)
    requires e == UnpackError
    ensures FallbackResponse(e) == GenericAdvicePrefix + e + GenericAdviceSuffix
  {
    UnpackErrorWords(e);
    GenericAdviceQuotes(e);
  }

  /** The request `send_message` sends: the history, led by the plain system prompt only when it is the first message. */
  function PlainRequest(s: ChatSettings, history: seq<Turn>): (r: seq<Turn>)
    ensures |history| == 1 ==> r == [Turn(SystemRole, s.systemPrompt)] + history
    ensures |history| != 1 ==> r == history
  {
    if |history| == 1 then [Turn(SystemRole, s.systemPrompt)] + history else history
  }

  /** An assistant row carrying a fallback reply for error `e`. */
  function FallbackMessage(conversation: nat, e: string): (r: Message)
  {
    Message(0, conversation, AssistantRole, FallbackResponse(e), None, None, None, 0)
  }

  /**
   * The row `send_message` saves as written. Line 149 unpacks the configuration
   * dictionary into two names, which raises before the model is called, so the
   * reply is a fallback whatever the model would have said.
   */
  function PlainReplyAsWritten(cfg: Result<AiConfig>, conversation: nat): (r: Message)
  {
    FallbackMessage(conversation, if cfg.Err? then cfg.error else UnpackError)
  }

  /** The row `send_message` saves once the configuration is used as `send_message_simple` uses it. */
  function PlainReply(cfg: Result<AiConfig>, call: Result<(string, int)>, conversation: nat): (r: Message)
  {
    if cfg.Err? then FallbackMessage(conversation, cfg.error)
    else if call.Err? then FallbackMessage(conversation, call.error)
    else Message(0, conversation, AssistantRole, call.value.0, None, None, None, call.value.1)
  }

  /**
   * As written, `send_message` never answers: a complete configuration yields
   * the generic advice quoting the unpacking error, and each configuration
   * error yields its advice, whatever the model would have replied.
   */
  lemma PlainReplyAsWrittenNeverAnswers(cfg: Result<AiConfig>, conversation: nat)
    requires cfg.Err? ==> cfg.error in {NoConfigError, NoUrlError, NoKeyError}
    ensures var m := PlainReplyAsWritten(cfg, conversation);
      && m.role == AssistantRole && m.tokenCount == 0 && m.thinking.None?
      && (cfg.Ok? ==> m.content == GenericAdvicePrefix + UnpackError + GenericAdviceSuffix)
      && (cfg.Err? && cfg.error == NoKeyError ==> m.content == KeyAdvice)
      && (cfg.Err? && cfg.error != NoKeyError ==> m.content == ConfigAdvice)
  {
    if cfg.Ok? {
      UnpackErrorAdvice(UnpackError);
    } else if cfg.error == NoKeyError {
      NoKeyErrorAdvice(cfg.error);
    } else if cfg.error == NoConfigError {
      NoConfigErrorAdvice(cfg.error);
    } else {
      NoUrlErrorAdvice(cfg.error);
    }
  }

  /**
   * Corrected, `send_message` stores the model's reply and its token count when
   * the configuration is complete and the call succeeds, and the advice for the
   * error otherwise.
   */
  lemma PlainReplyAnswers(cfg: Result<AiConfig>, outcome: ApiOutcome, question: string, conversation: nat)
    ensures var call := CallAiApi(outcome, question);
      var m := PlainReply(cfg, call, conversation);
      && m.role == AssistantRole && m.conversation == conversation
      && ((cfg.Ok? && outcome.Completed? && outcome.hasMessage && outcome.content.Some? && outcome.content.value != "")
            ==> m.content == outcome.content.value)
      && (cfg.Ok? && outcome == TimedOut ==> m.content == NetworkAdvice)
      && (cfg.Ok? && outcome == AuthenticationFailed ==> m.content == KeyAdvice)
      && (cfg.Err? ==> m == FallbackMessage(conversation, cfg.error))
  {
    CallAiApiMessages(outcome, question);
    if cfg.Ok? && outcome == TimedOut {
      TimeoutErrorAdvice(TimeoutError);
    } else if cfg.Ok? && outcome == AuthenticationFailed {
      AuthErrorAdvice(AuthError);
    }
  }

  /** The steps of `send_message` as written after the user message is saved. */
  method AnswerPlainAsWritten(db: ChatDb, conv: Conversation, settings: ChatSettings, now: int)
    returns (r: SendOutcome, request: seq<Turn>)
    requires db.Valid() && conv in db.conversations
    modifies db
    ensures db.Valid()
    ensures request == PlainRequest(settings, HistoryAsWritten(old(db.messages), conv.id))
    ensures r == Sent(conv.id, PlainReplyAsWritten(GetAiConfig(settings, old(db.providers), old(db.models)), conv.id)
      .(id := old(db.nextId)))
    ensures db.messages == old(db.messages) + [r.message]
    ensures db.conversations == PutConversation(old(db.conversations), conv.(updatedAt := now))
    ensures db.providers == old(db.providers) && db.models == old(db.models) && db.settings == old(db.settings)
  {
    request := PlainRequest(settings, HistoryAsWritten(db.messages, conv.id));
    var cfg := GetAiConfig(settings, db.providers, db.models);
    var reply := db.AddMessage(PlainReplyAsWritten(cfg, conv.id));
    TouchConversation(db, conv, now);
    r := Sent(conv.id, reply);
  }

  /** The steps of the corrected `send_message` after the user message is saved. */
  method AnswerPlain(db: ChatDb, conv: Conversation, settings: ChatSettings, now: int, outcome: ApiOutcome)
    returns (r: SendOutcome, request: seq<Turn>)
    requires db.Valid() && conv in db.conversations && db.messages != []
    requires db.messages[|db.messages| - 1].conversation == conv.id
    modifies db
    ensures db.Valid()
    ensures request == PlainRequest(settings, History(old(db.messages), conv.id))
    ensures r == Sent(conv.id, PlainReply(GetAiConfig(settings, old(db.providers), old(db.models)),
      CallAiApi(outcome, old(db.messages)[|old(db.messages)| - 1].content), conv.id).(id := old(db.nextId)))
    ensures db.messages == old(db.messages) + [r.message]
    ensures db.conversations == PutConversation(old(db.conversations), conv.(updatedAt := now))
    ensures db.providers == old(db.providers) && db.models == old(db.models) && db.settings == old(db.settings)
  {
    var ms, next := db.messages, db.nextId;
    HistoryEndsWithNewest(ms, conv.id);
    var history := History(ms, conv.id);
    request := PlainRequest(settings, history);
    var cfg := GetAiConfig(settings, db.providers, db.models);
    var call := CallAiApi(outcome, request[|request| - 1].content);
    assert call == CallAiApi(outcome, ms[|ms| - 1].content);
    var reply := db.AddMessage(PlainReply(cfg, call, conv.id));
    assert reply == PlainReply(cfg, call, conv.id).(id := next);
    TouchConversation(db, conv, now);
    r := Sent(conv.id, reply);
  }

  /**
   * `send_message` as written: only a missing conversation is an error; every
   * other request saves a fallback reply (`PlainReplyAsWrittenNeverAnswers`).
   */
  method SendMessageAsWritten(db: ChatDb, svc: Service, user: nat, content: string, conversationId: nat, now: int)
    returns (r: SendOutcome, settings: ChatSettings)
    requires db.Valid()
    modifies db
    ensures db.Valid()
    ensures !(conversationId == 0 || old(FindConversation(db.conversations, conversationId, user)).Some?) ==>
      (r == Rejected(NoConversationError) && db.conversations == old(db.conversations)
       && db.messages == old(db.messages) && db.settings == old(db.settings))
    ensures conversationId == 0 || old(FindConversation(db.conversations, conversationId, user)).Some? ==>
      (db.SettingsOf(user) == Some(settings) && r.Sent?
       && r.message == PlainReplyAsWritten(GetAiConfig(settings, db.providers, db.models), r.conversationId)
            .(id := r.message.id)
       && db.messages != [] && db.messages[|db.messages| - 1] == r.message)
  {
    var found, conv, asked;
    found, conv, asked, settings := OpenTurn(db, svc, user, content, conversationId, now);
    if !found {
      return Rejected(NoConversationError), settings;
    }
    ghost var ps, mds, st := db.providers, db.models, db.settings;
    assert FindSettings(st, user) == Some(settings);
    var request;
    r, request := AnswerPlainAsWritten(db, conv, settings, now);
    assert db.settings == st && db.providers == ps && db.models == mds;
  }

  /**
   * `send_message` corrected: the reply is the model's when the configuration is
   * complete and the call succeeds, and the advice for the error otherwise;
   * only a missing conversation is an error.
   */
  method SendMessage(db: ChatDb, svc: Service, user: nat, content: string, conversationId: nat, now: int,
                     outcome: ApiOutcome)
    returns (r: SendOutcome, settings: ChatSettings)
    requires db.Valid()
    modifies db
    ensures db.Valid()
    ensures !(conversationId == 0 || old(FindConversation(db.conversations, conversationId, user)).Some?) ==>
      (r == Rejected(NoConversationError) && db.conversations == old(db.conversations)
       && db.messages == old(db.messages) && db.settings == old(db.settings))
    ensures conversationId == 0 || old(FindConversation(db.conversations, conversationId, user)).Some? ==>
      (db.SettingsOf(user) == Some(settings) && r.Sent?
       && r.message == PlainReply(GetAiConfig(settings, db.providers, db.models), CallAiApi(outcome, content),
                                  r.conversationId).(id := r.message.id)
       && db.messages != [] && db.messages[|db.messages| - 1] == r.message)
  {
    var found, conv, asked;
    found, conv, asked, settings := OpenTurn(db, svc, user, content, conversationId, now);
    if !found {
      return Rejected(NoConversationError), settings;
    }
    ghost var ms, ps, mds, st := db.messages, db.providers, db.models, db.settings;
    assert FindSettings(st, user) == Some(settings);
    assert ms[|ms| - 1] == asked;
    var request;
    r, request := AnswerPlain(db, conv, settings, now, outcome);
    assert db.settings == st && db.providers == ps && db.models == mds;
  }
}
