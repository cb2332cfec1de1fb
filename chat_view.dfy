/**
 * The chat page's session manager (frontend/src/components/Chat.tsx): the
 * conversation list, the open conversation and its messages, the input box,
 * the settings drawer's provider and model fields, and the periodic refresh of
 * the conversation list.
 *
 * Each `useState` hook is a field of `ChatView`. Every backend request is
 * awaited to completion before the next step, and its outcome is a
 * parameter: `None` when the request failed (the promise rejected). The
 * clock `Date.now()` is a parameter `now`.
 */
module ChatView {
  import opened Wrappers
  import opened Text

  datatype Conversation = Conversation(id: nat, title: string)

  datatype ChatMessage = ChatMessage(id: int, role: string, content: string, timestamp: int)

  datatype AiProvider = AiProvider(id: nat, name: string, providerType: string)

  datatype AiModel = AiModel(id: nat, provider: nat, modelName: string, modelId: string, description: Option<string>)

  /** The settings fields the page reads: the default provider and model. */
  datatype ChatSettings = ChatSettings(defaultProvider: Option<nat>, defaultModel: Option<nat>)

  /** The body of a successful `sendSimpleMessage`. */
  datatype SendReply = SendReply(conversationId: nat, message: ChatMessage)

  /**
   * The two bodies `Promise.all` delivers for the AI configuration; a body
   * that is not a JSON array is `None`.
   */
  datatype AiConfigReply = AiConfigReply(providers: Option<seq<AiProvider>>, models: Option<seq<AiModel>>)

  /** The whole page state, one value per hook. */
  datatype View = View(
    conversations: seq<Conversation>, current: Option<Conversation>, messages: seq<ChatMessage>,
    inputMessage: string, loading: bool, sendingMessage: bool,
    providers: seq<AiProvider>, models: seq<AiModel>, chatSettings: Option<ChatSettings>,
    formProvider: Option<nat>, formModel: Option<nat>, settingsVisible: bool,
    newConversationModal: bool, editTitleModal: bool, editing: Option<Conversation>,
    lastRefreshTime: int, refreshBase: int)

  /** The refresh check runs every 2 s ... */
  const RefreshCheckInterval: int := 2000
  /** ... and reloads once more than 10 s have passed since the reference time. */
  const RefreshAfter: int := 10000

  predicate RefreshDue(last: int, now: int)
  {
    now - last > RefreshAfter
  }

  /** The conversation list after `loadConversations`: a failed load keeps it, a body without `results` empties it. */
  function Reloaded(cs: seq<Conversation>, response: Option<Option<seq<Conversation>>>): (r: seq<Conversation>)
    ensures response.None? ==> r == cs
    ensures response == Some(None) ==> r == []
    ensures response.Some? && response.value.Some? ==> r == response.value.value
  {
    match response
    case None => cs
    case Some(results) => if results.Some? then results.value else []
  }

  /** The list after deleting conversation `id`: exactly the entries with another id stay, in order. */
  function Removed(cs: seq<Conversation>, id: nat): (r: seq<Conversation>)
    ensures forall c :: c in r <==> c in cs && c.id != id
    ensures |r| <= |cs|
    ensures (forall c :: c in cs ==> c.id != id) ==> r == cs
    ensures (exists c :: c in cs && c.id == id) ==> |r| < |cs|
  {
    if cs == [] then []
    else
      assert forall c :: c in cs ==> c == cs[0] || c in cs[1..];
      (if cs[0].id == id then [] else [cs[0]]) + Removed(cs[1..], id)
  }

  /** The list after renaming: the entries with the edited id become the updated one, every other stays in place. */
  function Renamed(cs: seq<Conversation>, id: nat, updated: Conversation): (r: seq<Conversation>)
    ensures |r| == |cs|
    ensures forall i :: 0 <= i < |cs| && cs[i].id == id ==> r[i] == updated
    ensures forall i :: 0 <= i < |cs| && cs[i].id != id ==> r[i] == cs[i]
  {
    if cs == [] then [] else [if cs[0].id == id then updated else cs[0]] + Renamed(cs[1..], id, updated)
  }

  /** The optimistic user message: stamped with the clock, holding the trimmed input. */
  function UserMessage(now: int, text: string): (m: ChatMessage)
  {
    ChatMessage(now, "user", text, now)
  }

  const SendFailedPrefix: string := "发送消息失败: "

  /**
   * The error shown when sending fails: the backend's `error` field, else the
   * exception's message, else `未知错误`; never an empty explanation.
   */
  function SendErrorText(dataError: Option<string>, errorMessage: Option<string>): (r: string)
    ensures |r| > |SendFailedPrefix| && r[..|SendFailedPrefix|] == SendFailedPrefix
    ensures dataError.Some? && dataError.value != "" ==> r[|SendFailedPrefix|..] == dataError.value
    ensures (dataError.None? || dataError.value == "") && errorMessage.Some? && errorMessage.value != "" ==>
      r[|SendFailedPrefix|..] == errorMessage.value
    ensures (dataError.None? || dataError.value == "") && (errorMessage.None? || errorMessage.value == "") ==>
      r[|SendFailedPrefix|..] == "未知错误"
  {
    SendFailedPrefix + OrElse(dataError, OrElse(errorMessage, "未知错误"))
  }

  /** The open conversation after a successful send: refetched when there was none or its id differs from the reply's. */
  function AfterSend(current: Option<Conversation>, conversationId: nat, fetched: Option<Conversation>): (r: Option<Conversation>)
    ensures current.Some? && current.value.id == conversationId ==> r == current
    ensures (current.None? || current.value.id != conversationId) && fetched.Some? ==> r == fetched
    ensures fetched.None? ==> r == current
  {
    if (current.None? || current.value.id != conversationId) && fetched.Some? then fetched else current
  }

  /** JavaScript truthiness of an optional id: 0 and a missing value are falsy. */
  predicate Truthy(p: Option<nat>)
  {
    p.Some? && p.value != 0
  }

  /** The models of one provider, in list order. */
  function ProviderModels(models: seq<AiModel>, providerId: Option<nat>): (r: seq<AiModel>)
    ensures forall m :: m in r <==> m in models && providerId == Some(m.provider)
    ensures |r| <= |models|
  {
    if models == [] then []
    else
      assert forall m :: m in models ==> m == models[0] || m in models[1..];
      (if providerId == Some(models[0].provider) then [models[0]] else []) + ProviderModels(models[1..], providerId)
  }

  /**
   * The model field after the provider field changes: the first model of the
   * chosen provider when it has one, otherwise the field as it was.
   */
  function CascadeModel(models: seq<AiModel>, providerId: Option<nat>, field: Option<nat>): (r: Option<nat>)
    ensures (forall m :: m in models ==> providerId != Some(m.provider)) ==> r == field
    ensures (exists m :: m in models && providerId == Some(m.provider)) ==>
      exists m :: m in models && providerId == Some(m.provider) && r == Some(m.id)
  {
    var providerModels := ProviderModels(models, providerId);
    if |providerModels| > 0 then
      assert providerModels[0] in providerModels;
      Some(providerModels[0].id)
    else
      assert forall m :: m in models && providerId == Some(m.provider) ==> m in providerModels;
      field
  }

  /** The model the cascade picks is the earliest of that provider in list order. */
  lemma {:induction false} CascadePicksFirst(models: seq<AiModel>, providerId: Option<nat>, field: Option<nat>, i: nat)
    requires i < |models| && providerId == Some(models[i].provider)
    requires forall j :: 0 <= j < i ==> providerId != Some(models[j].provider)
    ensures CascadeModel(models, providerId, field) == Some(models[i].id)
  {
    if i > 0 {
      assert ProviderModels(models, providerId) == ProviderModels(models[1..], providerId);
      CascadePicksFirst(models[1..], providerId, field, i - 1);
    }
  }

  /** The options of the model field: the selected provider's models, or all models when no provider is selected. */
  function ModelOptions(models: seq<AiModel>, selected: Option<nat>): (r: seq<AiModel>)
    ensures !Truthy(selected) ==> r == models
    ensures Truthy(selected) ==> forall m :: m in r <==> m in models && m.provider == selected.value
  {
    if Truthy(selected) then ProviderModels(models, selected) else models
  }

  /**
   * The cascade keeps the two fields consistent: after choosing a provider
   * that has models, the model field holds one of the options then offered.
   */
  lemma CascadeIsOffered(models: seq<AiModel>, providerId: nat, field: Option<nat>)
    requires providerId != 0
    requires exists m :: m in models && m.provider == providerId
    ensures exists m :: m in ModelOptions(models, Some(providerId)) && CascadeModel(models, Some(providerId), field) == Some(m.id)
  {
    var m :| m in models && Some(providerId) == Some(m.provider) && CascadeModel(models, Some(providerId), field) == Some(m.id);
    assert m in ModelOptions(models, Some(providerId));
  }

  /** The first model with the given id. */
  function FindModel(models: seq<AiModel>, id: nat): (r: Option<AiModel>)
    ensures r.Some? ==> r.value in models && r.value.id == id
    ensures r.None? ==> forall m :: m in models ==> m.id != id
  {
    if models == [] then None else if models[0].id == id then Some(models[0]) else FindModel(models[1..], id)
  }

  /**
   * The search filter of the model field: an option matches when its model's
   * name, model id or description contains the typed text, ignoring ASCII case.
   */
  predicate SearchMatches(models: seq<AiModel>, value: Option<nat>, input: string)
  {
    if !Truthy(value) then false
    else
      var m := FindModel(models, value.value);
      m.Some? &&
        (Contains(Lower(m.value.modelName), Lower(input)) || Contains(Lower(m.value.modelId), Lower(input))
         || (m.value.description.Some? && m.value.description.value != ""
             && Contains(Lower(m.value.description.value), Lower(input))))
  }

  /** The empty search keeps exactly the options whose id names a known model. */
  lemma EmptySearchKeepsKnown(models: seq<AiModel>, value: Option<nat>)
    ensures SearchMatches(models, value, "") <==> Truthy(value) && FindModel(models, value.value).Some?
  {
    if Truthy(value) && FindModel(models, value.value).Some? {
      var m := FindModel(models, value.value).value;
      assert [] <= Lower(m.modelName);
    }
  }

  /**
   * The reload times of the refresh interval when the reference time is the
   * latest reload: a tick reloads when more than 10 s have passed since it.
   */
  function ReloadTimes(last: int, ticks: seq<int>): (r: seq<int>)
    ensures |r| <= |ticks|
    decreases |ticks|
  {
    if ticks == [] then []
    else if RefreshDue(last, ticks[0]) then [ticks[0]] + ReloadTimes(ticks[0], ticks[1..])
    else ReloadTimes(last, ticks[1..])
  }

  /** With the latest reload as reference, reloads are more than 10 s apart. */
  lemma {:induction false} ReloadsSpaced(last: int, ticks: seq<int>)
    ensures forall k :: 0 <= k < |ReloadTimes(last, ticks)| ==> ReloadTimes(last, ticks)[k] - last > RefreshAfter
    ensures forall k :: 0 <= k < |ReloadTimes(last, ticks)| - 1 ==>
      ReloadTimes(last, ticks)[k + 1] - ReloadTimes(last, ticks)[k] > RefreshAfter
    decreases |ticks|
  {
    if ticks != [] {
      if RefreshDue(last, ticks[0]) {
        ReloadsSpaced(ticks[0], ticks[1..]);
      } else {
        ReloadsSpaced(last, ticks[1..]);
      }
    }
  }

  /**
   * The reload times of the interval as written: the callback compares with
   * the `lastRefreshTime` of the render it was created in, which never moves.
   */
  function ReloadTimesAsWritten(base: int, ticks: seq<int>): (r: seq<int>)
    ensures forall t :: t in r <==> t in ticks && RefreshDue(base, t)
  {
    Filter(ticks, t => RefreshDue(base, t))
  }

  /** As written, once 10 s have passed since mounting every 2 s check reloads again. */
  lemma AsWrittenReloadsEveryCheck(base: int)
    ensures ReloadTimesAsWritten(base, [base + 12000, base + 14000]) == [base + 12000, base + 14000]
    ensures ReloadTimes(base, [base + 12000, base + 14000]) == [base + 12000]
  {
    var ticks := [base + 12000, base + 14000];
    assert ticks[1..] == [base + 14000] && ticks[1..][1..] == [];
    assert Filter(ticks[1..][1..], t => RefreshDue(base, t)) == [];
    assert Filter(ticks[1..], t => RefreshDue(base, t)) == [base + 14000];
  }

  class ChatPage {
    var conversations: seq<Conversation>
    var current: Option<Conversation>
    var messages: seq<ChatMessage>
    var inputMessage: string
    var loading: bool
    var sendingMessage: bool
    var providers: seq<AiProvider>
    var models: seq<AiModel>
    var chatSettings: Option<ChatSettings>
    /** The settings form's `default_provider` and `default_model` fields. */
    var formProvider: Option<nat>
    var formModel: Option<nat>
    var settingsVisible: bool
    var newConversationModal: bool
    var editTitleModal: bool
    var editing: Option<Conversation>
    var lastRefreshTime: int
    /** The `lastRefreshTime` the running interval callback closed over. */
    var refreshBase: int

    function State(): (v: View)
      reads this
    {
      View(conversations, current, messages, inputMessage, loading, sendingMessage, providers, models, chatSettings,
           formProvider, formModel, settingsVisible, newConversationModal, editTitleModal, editing,
           lastRefreshTime, refreshBase)
    }

    /** The first render: every hook at its initial value, the refresh time the clock. */
    constructor (now: int)
      ensures State() == View([], None, [], "", false, false, [], [], None, None, None, false, false, false, None, now, now)
    {
      conversations, current, messages, inputMessage := [], None, [], "";
      loading, sendingMessage := false, false;
      providers, models, chatSettings := [], [], None;
      formProvider, formModel := None, None;
      settingsVisible, newConversationModal, editTitleModal, editing := false, false, false, None;
      lastRefreshTime, refreshBase := now, now;
    }

    /** `loadConversations`: a reply replaces the list wholesale; a failure keeps it; the spinner ends off. */
    method LoadConversations(response: Option<Option<seq<Conversation>>>)
      modifies this
      ensures State() == old(State()).(conversations := Reloaded(old(conversations), response), loading := false)
    {
      loading := true;
      if response.Some? {
        conversations := if response.value.Some? then response.value.value else [];
      }
      loading := false;
    }

    /** `loadMessages`: a reply replaces the messages; a failure keeps them. */
    method LoadMessages(response: Option<seq<ChatMessage>>)
      modifies this
      ensures response.Some? ==> State() == old(State()).(messages := response.value)
      ensures response.None? ==> State() == old(State())
    {
      if response.Some? {
        messages := response.value;
      }
    }

    /** `loadAIConfig`: either list that is not an array becomes empty; any failure empties both. */
    method LoadAiConfig(response: Option<AiConfigReply>)
      modifies this
      ensures response.None? ==> State() == old(State()).(providers := [], models := [])
      ensures response.Some? ==>
        State() == old(State()).(providers := if response.value.providers.Some? then response.value.providers.value else [],
                                 models := if response.value.models.Some? then response.value.models.value else [])
    {
      match response
      case None =>
        providers, models := [], [];
      case Some(reply) =>
        providers := if reply.providers.Some? then reply.providers.value else [];
        models := if reply.models.Some? then reply.models.value else [];
    }

    /** `loadChatSettings`: the settings and the form take the reply; a failure changes nothing. */
    method LoadChatSettings(response: Option<ChatSettings>)
      modifies this
      ensures response.None? ==> State() == old(State())
      ensures response.Some? ==>
        State() == old(State()).(chatSettings := response, formProvider := response.value.defaultProvider,
                                 formModel := response.value.defaultModel)
    {
      if response.Some? {
        chatSettings := response;
        formProvider, formModel := response.value.defaultProvider, response.value.defaultModel;
      }
    }

    /**
     * `sendMessage`. Blank input does nothing. Otherwise the input is cleared
     * and the trimmed text appended as a user message before the request.
     * On success the reply's message follows it, the open conversation is
     * refetched when it is not the reply's, and the list reloads; on failure
     * the last message is dropped again and the error text returned.
     */
    method SendMessage(now: int, reply: Option<SendReply>, fetched: Option<Conversation>,
                       reload: Option<Option<seq<Conversation>>>, dataError: Option<string>, errorMessage: Option<string>)
      returns (error: Option<string>)
      modifies this
      ensures Trim(JavaScript, old(inputMessage)) == "" ==> State() == old(State()) && error.None?
      ensures Trim(JavaScript, old(inputMessage)) != "" && reply.None? ==>
        State() == old(State()).(inputMessage := "", sendingMessage := false)
        && error == Some(SendErrorText(dataError, errorMessage))
      ensures Trim(JavaScript, old(inputMessage)) != "" && reply.Some? ==>
        State() == old(State()).(
          inputMessage := "", sendingMessage := false, loading := false,
          messages := old(messages) + [UserMessage(now, Trim(JavaScript, old(inputMessage))), reply.value.message],
          current := AfterSend(old(current), reply.value.conversationId, fetched),
          conversations := Reloaded(old(conversations), reload),
          lastRefreshTime := now)
        && error.None?
    {
      error := None;
      var userMessage := Trim(JavaScript, inputMessage);
      if userMessage == "" {
        return;
      }
      sendingMessage := true;
      inputMessage := "";
      messages := messages + [UserMessage(now, userMessage)];
      match reply {
      case None =>
        error := Some(SendErrorText(dataError, errorMessage));
        DropLast();
      case Some(response) =>
        Received(now, response, fetched, reload);
      }
      sendingMessage := false;
    }

    /** The rollback of a failed send: `slice(0, -1)` on the messages. */
    method DropLast()
      requires |messages| > 0
      modifies this
      ensures State() == old(State()).(messages := old(messages)[..|old(messages)| - 1])
    {
      messages := messages[..|messages| - 1];
    }

    /** The success path of a send, after the user message was appended. */
    method Received(now: int, response: SendReply, fetched: Option<Conversation>, reload: Option<Option<seq<Conversation>>>)
      modifies this
      ensures State() == old(State()).(
        loading := false, messages := old(messages) + [response.message],
        current := AfterSend(old(current), response.conversationId, fetched),
        conversations := Reloaded(old(conversations), reload), lastRefreshTime := now)
    {
      current := AfterSend(current, response.conversationId, fetched);
      LoadConversations(reload);
      messages := messages + [response.message];
      lastRefreshTime := now;
    }

    /**
     * `createNewConversation`: on success the new conversation is prepended
     * and opened, the dialog closes, and the messages are loaded when a first
     * message was given and emptied otherwise; on failure nothing changes.
     */
    method CreateNewConversation(firstMessage: Option<string>, reply: Option<Conversation>, loaded: Option<seq<ChatMessage>>)
      modifies this
      ensures reply.None? ==> State() == old(State())
      ensures reply.Some? ==>
        State() == old(State()).(
          conversations := [reply.value] + old(conversations), current := reply, newConversationModal := false,
          messages := if firstMessage.Some? && firstMessage.value != "" then
                        (if loaded.Some? then loaded.value else old(messages))
                      else [])
    {
      if reply.None? {
        return;
      }
      var conversation := reply.value;
      conversations := [conversation] + conversations;
      current := Some(conversation);
      newConversationModal := false;
      if firstMessage.Some? && firstMessage.value != "" {
        LoadMessages(loaded);
      } else {
        messages := [];
      }
    }

    /** `selectConversation`: the conversation opens and its messages load. */
    method SelectConversation(conversation: Conversation, loaded: Option<seq<ChatMessage>>)
      modifies this
      ensures State() == old(State()).(current := Some(conversation),
                                       messages := if loaded.Some? then loaded.value else old(messages))
    {
      current := Some(conversation);
      LoadMessages(loaded);
    }

    /**
     * `deleteConversation`: only after the backend succeeded, the entries
     * with that id go, and the open conversation closes (its messages with
     * it) exactly when it had that id.
     */
    method DeleteConversation(id: nat, succeeded: bool)
      modifies this
      ensures !succeeded ==> State() == old(State())
      ensures succeeded && old(current).Some? && old(current).value.id == id ==>
        State() == old(State()).(conversations := Removed(old(conversations), id), current := None, messages := [])
      ensures succeeded && (old(current).None? || old(current).value.id != id) ==>
        State() == old(State()).(conversations := Removed(old(conversations), id))
    {
      if !succeeded {
        return;
      }
      conversations := Removed(conversations, id);
      if current.Some? && current.value.id == id {
        current := None;
        messages := [];
      }
    }

    /** The “edit title” menu entry: remembers the conversation and opens the dialog. */
    method StartEditing(conversation: Conversation)
      modifies this
      ensures State() == old(State()).(editing := Some(conversation), editTitleModal := true)
    {
      editing := Some(conversation);
      editTitleModal := true;
    }

    /**
     * `updateConversationTitle`: without a conversation being edited nothing
     * happens; on success the entries with its id and the open conversation,
     * when it has that id, become the updated one and the dialog closes; on
     * failure nothing changes.
     */
    method UpdateConversationTitle(reply: Option<Conversation>)
      modifies this
      ensures old(editing).None? || reply.None? ==> State() == old(State())
      ensures old(editing).Some? && reply.Some? ==>
        State() == old(State()).(
          conversations := Renamed(old(conversations), old(editing).value.id, reply.value),
          current := if old(current).Some? && old(current).value.id == old(editing).value.id then reply else old(current),
          editTitleModal := false, editing := None)
    {
      if editing.None? || reply.None? {
        return;
      }
      var id := editing.value.id;
      conversations := Renamed(conversations, id, reply.value);
      if current.Some? && current.value.id == id {
        current := reply;
      }
      editTitleModal := false;
      editing := None;
    }

    /** `updateChatSettings`: on success the settings take the reply and the drawer closes. */
    method UpdateChatSettings(reply: Option<ChatSettings>)
      modifies this
      ensures reply.None? ==> State() == old(State())
      ensures reply.Some? ==> State() == old(State()).(chatSettings := reply, settingsVisible := false)
    {
      if reply.Some? {
        chatSettings := reply;
        settingsVisible := false;
      }
    }

    /** The provider field's `onChange`: the field takes the choice and the model field cascades. */
    method ChangeProvider(providerId: Option<nat>)
      modifies this
      ensures State() == old(State()).(formProvider := providerId,
                                       formModel := CascadeModel(old(models), providerId, old(formModel)))
    {
      formProvider := providerId;
      var providerModels := ProviderModels(models, providerId);
      if |providerModels| > 0 {
        formModel := Some(providerModels[0].id);
      }
    }

    /** The options the model field offers for the current provider field. */
    function ModelChoices(): (r: seq<AiModel>)
      reads this
      ensures forall m :: m in r ==> m in models
      ensures forall m :: m in models && (!Truthy(formProvider) || m.provider == formProvider.value) ==> m in r
    {
      ModelOptions(models, formProvider)
    }

    /** The effect on a change of the open conversation's id: stamp the refresh time and reload its messages. */
    method CurrentChanged(now: int, loaded: Option<seq<ChatMessage>>)
      modifies this
      ensures current.Some? && current.value.id != 0 ==>
        State() == old(State()).(lastRefreshTime := now, messages := if loaded.Some? then loaded.value else old(messages))
      ensures current.None? || current.value.id == 0 ==> State() == old(State()).(lastRefreshTime := now)
    {
      lastRefreshTime := now;
      if current.Some? && current.value.id != 0 {
        LoadMessages(loaded);
      }
    }

    /** The effect on a change of the number of messages: stamp the refresh time. */
    method MessagesChanged(now: int)
      modifies this
      ensures State() == old(State()).(lastRefreshTime := now)
    {
      lastRefreshTime := now;
    }

    /** `startAutoRefresh`: the new interval callback closes over the current refresh time. */
    method StartAutoRefresh()
      modifies this
      ensures State() == old(State()).(refreshBase := old(lastRefreshTime))
    {
      refreshBase := lastRefreshTime;
    }

    /**
     * One 2 s check of the interval as written: it compares with the captured
     * time, so stamping `lastRefreshTime` never postpones the next reload.
     */
    method RefreshCheckAsWritten(now: int, reload: Option<Option<seq<Conversation>>>) returns (reloaded: bool)
      modifies this
      ensures reloaded <==> RefreshDue(old(refreshBase), now)
      ensures reloaded ==>
        State() == old(State()).(conversations := Reloaded(old(conversations), reload), loading := false, lastRefreshTime := now)
      ensures !reloaded ==> State() == old(State())
    {
      reloaded := RefreshDue(refreshBase, now);
      if reloaded {
        LoadConversations(reload);
        lastRefreshTime := now;
      }
    }

    /**
     * One 2 s check as intended: more than 10 s after the latest refresh
     * stamp the list is reloaded (replaced wholesale, the messages untouched)
     * and the stamp moves to now.
     */
    method RefreshCheck(now: int, reload: Option<Option<seq<Conversation>>>) returns (reloaded: bool)
      modifies this
      ensures reloaded <==> RefreshDue(old(lastRefreshTime), now)
      ensures reloaded ==>
        State() == old(State()).(conversations := Reloaded(old(conversations), reload), loading := false, lastRefreshTime := now)
      ensures !reloaded ==> State() == old(State())
    {
      reloaded := RefreshDue(lastRefreshTime, now);
      if reloaded {
        LoadConversations(reload);
        lastRefreshTime := now;
      }
    }
  }
}
