/**
 * The request validators and the computed fields of the chat API
 * (backend/chat/serializers.py).
 */
module ChatSerializers {
  import opened Wrappers
  import opened Text
  import opened ChatModels
  import ChatServices

  // ---------------------------------------------------------------------------
  // Character fields
  // ---------------------------------------------------------------------------

  const BlankFieldError: string := "This field may not be blank."

  function TooLongError(maxLength: nat): (r: string)
  {
    "Ensure this field has no more than " + NatToString(maxLength) + " characters."
  }

  /**
   * A REST framework `CharField` with its defaults: the value is stripped, an
   * all-white-space value is refused unless blanks are allowed, and a stripped
   * value longer than `maxLength` is refused. The messages are the framework's
   * English defaults.
   */
  function CharField(value: string, maxLength: nat, allowBlank: bool): (r: Result<string>)
    ensures r.Ok? <==> (allowBlank || !Blank(Python, value)) && |Strip(value)| <= maxLength
    ensures r.Ok? ==> r.value == Strip(value)
  {
    if !allowBlank && Blank(Python, value) then Err(BlankFieldError)
    else if |Strip(value)| > maxLength then Err(TooLongError(maxLength))
    else Ok(Strip(value))
  }

  /** The shape of `validate_message`, `validate_title` and `validate_api_key`. */
  function StripNonBlank(value: string, blankError: string): (r: Result<string>)
    ensures r.Ok? <==> !Blank(Python, value)
    ensures r.Ok? ==> r.value == Strip(value) && r.value != []
    ensures r.Err? ==> r.error == blankError
  {
    TrimEmptyIffBlank(Python, value);
    if Blank(Python, value) then Err(blankError) else Ok(Strip(value))
  }

  /** A field followed by its `validate_<field>` method. */
  function Validated(value: string, maxLength: nat, blankError: string): (r: Result<string>)
  {
    match CharField(value, maxLength, false)
    case Err(e) => Err(e)
    case Ok(v) => StripNonBlank(v, blankError)
  }

  /**
   * A validated value is the stripped input, non-empty and within the length
   * limit; the field refuses blank input itself, so the validator's own error
   * never reaches the caller; and validating the result again accepts it as it is.
   */
  lemma ValidatedFacts(value: string, maxLength: nat, blankError: string)
    ensures var r := Validated(value, maxLength, blankError);
      && (r.Ok? <==> !Blank(Python, value) && |Strip(value)| <= maxLength)
      && (r.Ok? ==> r.value == Strip(value) && 0 < |r.value| <= maxLength)
      && (r.Err? ==> r.error == BlankFieldError || r.error == TooLongError(maxLength))
      && (r.Ok? ==> Validated(r.value, maxLength, blankError) == r)
  {
    var r := Validated(value, maxLength, blankError);
    if !Blank(Python, value) {
      TrimEmptyIffBlank(Python, value);
      TrimIdempotent(Python, value);
      var v := Strip(value);
      if v != [] && Blank(Python, v) {
        TrimEmptyIffBlank(Python, v);
      }
    }
  }

  const EmptyMessageError: string := "消息内容不能为空"
  const EmptyTitleError: string := "会话标题不能为空"
  const EmptyKeyError: string := "API密钥不能为空"
  const MessageMaxLength: nat := 4000
  const TitleMaxLength: nat := 200
  const ApiKeyMaxLength: nat := 500

  /** `SendMessageSerializer.message`: at most 4000 characters, stripped, not blank. */
  function ValidateMessage(value: string): (r: Result<string>)
    ensures r.Ok? <==> !Blank(Python, value) && |Strip(value)| <= MessageMaxLength
    ensures r.Ok? ==> r.value == Strip(value) && 0 < |r.value| <= MessageMaxLength
  {
    ValidatedFacts(value, MessageMaxLength, EmptyMessageError);
    Validated(value, MessageMaxLength, EmptyMessageError)
  }

  /** `CreateConversationSerializer.title`: at most 200 characters, stripped, not blank. */
  function ValidateTitle(value: string): (r: Result<string>)
    ensures r.Ok? <==> !Blank(Python, value) && |Strip(value)| <= TitleMaxLength
    ensures r.Ok? ==> r.value == Strip(value) && 0 < |r.value| <= TitleMaxLength
  {
    ValidatedFacts(value, TitleMaxLength, EmptyTitleError);
    Validated(value, TitleMaxLength, EmptyTitleError)
  }

  /** `CreateConversationSerializer.first_message`: optional, may be blank, stripped, at most 4000 characters. */
  function ValidateFirstMessage(value: Option<string>): (r: Result<string>)
    ensures value.None? ==> r == Ok("")
    ensures value.Some? ==> (r.Ok? <==> |Strip(value.value)| <= MessageMaxLength)
    ensures value.Some? && r.Ok? ==> r.value == Strip(value.value)
  {
    if value.None? then Ok("") else CharField(value.value, MessageMaxLength, true)
  }

  /** `TestAPIConnectionSerializer.api_key`: at most 500 characters, stripped, not blank. */
  function ValidateApiKey(value: string): (r: Result<string>)
    ensures r.Ok? <==> !Blank(Python, value) && |Strip(value)| <= ApiKeyMaxLength
    ensures r.Ok? ==> r.value == Strip(value) && 0 < |r.value| <= ApiKeyMaxLength
  {
    ValidatedFacts(value, ApiKeyMaxLength, EmptyKeyError);
    Validated(value, ApiKeyMaxLength, EmptyKeyError)
  }

  // ---------------------------------------------------------------------------
  // Ownership checks
  // ---------------------------------------------------------------------------

  const ForeignProviderError: string := "只能选择您自己的AI提供商"
  const ForeignModelError: string := "只能选择您自己的AI模型"
  const UnknownProviderError: string := "AI提供商不存在或无权限访问"

  /** `AIModelSerializer.validate_provider`: a model may only be attached to one's own provider. */
  function ValidateModelProvider(p: Provider, user: nat): (r: Result<Provider>)
    ensures r.Ok? <==> p.user == user
    ensures r.Ok? ==> r.value == p
    ensures r.Err? ==> r.error == ForeignProviderError
  {
    if p.user != user then Err(ForeignProviderError) else Ok(p)
  }

  /** `ChatSettingsSerializer.validate_default_provider`: none, or one's own provider. */
  function ValidateDefaultProvider(p: Option<Provider>, user: nat): (r: Result<Option<Provider>>)
    ensures r.Ok? <==> p.None? || p.value.user == user
    ensures r.Ok? ==> r.value == p
  {
    if p.Some? && p.value.user != user then Err(ForeignProviderError) else Ok(p)
  }

  /** `ChatSettingsSerializer.validate_default_model`: none, or a model of one's own provider. */
  function ValidateDefaultModel(m: Option<AiModel>, ps: seq<Provider>, user: nat): (r: Result<Option<AiModel>>)
    requires ProvidersUnique(ps) && (m.Some? ==> HasProvider(ps, m.value.provider))
    ensures r.Ok? <==> m.None? || (exists p :: p in ps && p.id == m.value.provider && p.user == user)
    ensures r.Ok? ==> r.value == m
  {
    if m.None? then Ok(m)
    else
      var owner := ChatServices.ProviderById(ps, m.value.provider);
      assert owner.Some?;
      if owner.value.user != user then
        assert forall p :: p in ps && p.id == m.value.provider ==> p == owner.value;
        Err(ForeignModelError)
      else Ok(m)
  }

  /** `ModelDetectionSerializer.validate_provider_id`: the id of one of the user's providers. */
  function ValidateProviderId(ps: seq<Provider>, id: nat, user: nat): (r: Result<nat>)
    ensures r.Ok? <==> exists p :: p in ps && p.id == id && p.user == user
    ensures r.Ok? ==> r.value == id
    ensures r.Err? ==> r.error == UnknownProviderError
  {
    if ps == [] then Err(UnknownProviderError)
    else if ps[0].id == id && ps[0].user == user then Ok(id)
    else
      var rest := ValidateProviderId(ps[1..], id, user);
      assert forall p :: p in ps ==> p == ps[0] || p in ps[1..];
      rest
  }

  // ---------------------------------------------------------------------------
  // Computed fields
  // ---------------------------------------------------------------------------

  /** `message_count`. */
  function MessageCount(ms: seq<Message>, conversation: nat): (n: nat)
  {
    |ChatServices.MessagesOf(ms, conversation)|
  }

  /** What `get_last_message` reports. */
  datatype LastMessage = LastMessage(content: string, role: Role)

  /** A message content cut to 100 characters, marked "..." when cut. */
  function Preview(content: string): (r: string)
    ensures |content| <= 100 ==> r == content
    ensures |content| > 100 ==> |r| == 103 && r[..100] == content[..100] && r[100..] == "..."
  {
    if |content| > 100 then content[..100] + "..." else content
  }

  /** `get_last_message`: the conversation's latest message, previewed, or none without messages. */
  function GetLastMessage(ms: seq<Message>, conversation: nat): (r: Option<LastMessage>)
    ensures r.None? <==> MessageCount(ms, conversation) == 0
  {
    var own := ChatServices.MessagesOf(ms, conversation);
    if own == [] then None
    else Some(LastMessage(Preview(own[|own| - 1].content), own[|own| - 1].role))
  }

  /** A newly appended message of the conversation becomes its last message. */
  lemma LastMessageIsNewest(ms: seq<Message>, m: Message)
    ensures GetLastMessage(ms + [m], m.conversation) == Some(LastMessage(Preview(m.content), m.role))
  {
    assert (ms + [m])[..|ms + [m]| - 1] == ms;
  }

  function ActiveModelsOf(ms: seq<AiModel>, provider: nat): (r: seq<AiModel>)
  {
    if ms == [] then []
    else (if ms[0].provider == provider && ms[0].isActive then [ms[0]] else []) + ActiveModelsOf(ms[1..], provider)
  }

  /** `models_count`: only the provider's active models count. */
  function ModelsCount(ms: seq<AiModel>, provider: nat): (n: nat)
  {
    |ActiveModelsOf(ms, provider)|
  }

  /** A new model adds one to its provider's count exactly when it is active, and nothing to the others. */
  lemma {:induction false} ModelsCountAdd(ms: seq<AiModel>, m: AiModel, provider: nat)
    ensures ModelsCount([m] + ms, provider) == ModelsCount(ms, provider)
      + (if m.provider == provider && m.isActive then 1 else 0)
  {
    assert ([m] + ms)[1..] == ms;
  }

  /** A provider whose models are all inactive counts none. */
  lemma {:induction false} ModelsCountNoActive(ms: seq<AiModel>, provider: nat)
    requires forall m :: m in ms && m.provider == provider ==> !m.isActive
    ensures ModelsCount(ms, provider) == 0
    decreases |ms|
  {
    if ms != [] {
      assert ms[0] in ms;
      assert forall m :: m in ms[1..] ==> m in ms;
      ModelsCountNoActive(ms[1..], provider);
    }
  }

  /** A provider as `AIProviderListSerializer` (and, for reading, `AIProviderSerializer`) shows it: no key. */
  datatype ProviderItem = ProviderItem(
    id: nat, name: string, providerType: string, apiBaseUrl: string, isActive: bool, isDefault: bool, modelsCount: nat)

  function ProviderData(p: Provider, ms: seq<AiModel>): (r: ProviderItem)
  {
    ProviderItem(p.id, p.name, p.providerType, p.apiBaseUrl, p.isActive, p.isDefault, ModelsCount(ms, p.id))
  }

  /** The key is write-only: providers that differ only in their key read the same. */
  lemma ProviderDataHidesKey(p: Provider, key: string, ms: seq<AiModel>)
    ensures ProviderData(p.(apiKey := key), ms) == ProviderData(p, ms)
  {
  }
}
