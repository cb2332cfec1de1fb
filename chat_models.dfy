/**
 * The chat tables of the back end (backend/chat/models.py): conversations,
 * messages, AI providers, AI models and per-user chat settings, held as
 * sequences of rows, with the rules the model classes add on saving and on
 * deleting.
 */
module ChatModels {
  import opened Wrappers
  import opened Text

  datatype Role = UserRole | AssistantRole | SystemRole

  /** A conversation; `updatedAt` is the time of its last save. */
  datatype Conversation = Conversation(id: nat, user: nat, title: string, updatedAt: int, isActive: bool)

  /** A message; messages are kept in the order they were created, which is their time-stamp order. */
  datatype Message = Message(
    id: nat, conversation: nat, role: Role, content: string, thinking: Option<string>,
    modelName: Option<string>, modelProvider: Option<string>, tokenCount: int)

  datatype Provider = Provider(
    id: nat, user: nat, name: string, providerType: string, apiKey: string,
    apiBaseUrl: string, isActive: bool, isDefault: bool, updatedAt: int)

  datatype AiModel = AiModel(
    id: nat, provider: nat, modelId: string, modelName: string, description: string,
    maxTokens: int, isActive: bool)

  /** The settings row of one user; the two defaults are references that may be null. */
  datatype ChatSettings = ChatSettings(
    user: nat, defaultProvider: Option<nat>, defaultModel: Option<nat>, maxTokens: int, systemPrompt: string)

  const ProviderTypes: seq<string> := ["openai", "siliconflow", "freegpt", "qwen", "gemini", "claude", "custom"]
  const SettingsDefaultMaxTokens: int := 2048
  const ModelDefaultMaxTokens: int := 4096
  const DefaultSystemPrompt: string := "你是一个有用的AI助手，请用中文回答用户的问题。"

  // ---------------------------------------------------------------------------
  // Orderings
  // ---------------------------------------------------------------------------

  /** Providers are ordered default first, then most recently updated first. */
  predicate ProviderBefore(p: Provider, q: Provider)
  {
    (p.isDefault && !q.isDefault) || (p.isDefault == q.isDefault && p.updatedAt > q.updatedAt)
  }

  /** The first provider of a query in that ordering (`.first()`); ties keep table order. */
  function FirstProvider(ps: seq<Provider>): (r: Option<Provider>)
    ensures r.None? <==> ps == []
    ensures r.Some? ==> r.value in ps && forall q :: q in ps ==> !ProviderBefore(q, r.value)
  {
    if ps == [] then None
    else
      var rest := FirstProvider(ps[1..]);
      assert forall q :: q in ps ==> q == ps[0] || q in ps[1..];
      if rest.Some? && ProviderBefore(rest.value, ps[0]) then rest else Some(ps[0])
  }

  /** Models are ordered by display name. */
  function FirstModel(ms: seq<AiModel>): (r: Option<AiModel>)
    ensures r.None? <==> ms == []
    ensures r.Some? ==> r.value in ms && forall m :: m in ms ==> !StrLess(m.modelName, r.value.modelName)
  {
    if ms == [] then None
    else
      var rest := FirstModel(ms[1..]);
      assert forall m :: m in ms ==> m == ms[0] || m in ms[1..];
      if rest.Some? && StrLess(rest.value.modelName, ms[0].modelName) then
        StrLessAsymmetric(rest.value.modelName, ms[0].modelName);
        rest
      else
        StrLessIrreflexive(ms[0].modelName);
        assert forall m :: m in ms[1..] ==> !StrLess(m.modelName, ms[0].modelName) by {
          if rest.Some? {
            forall m | m in ms[1..] ensures !StrLess(m.modelName, ms[0].modelName) {
              StrNotLessTransitive(ms[0].modelName, rest.value.modelName, m.modelName);
            }
          }
        }
        Some(ms[0])
  }

  // ---------------------------------------------------------------------------
  // Table invariants
  // ---------------------------------------------------------------------------

  /** No two different providers share an id, and (user, name) is unique. */
  predicate ProvidersUnique(ps: seq<Provider>)
  {
    forall p, q :: p in ps && q in ps && (p.id == q.id || (p.user == q.user && p.name == q.name)) ==> p == q
  }

  /** No two different models share an id, and (provider, model id) is unique. */
  predicate ModelsUnique(ms: seq<AiModel>)
  {
    forall m, n :: m in ms && n in ms && (m.id == n.id || (m.provider == n.provider && m.modelId == n.modelId)) ==> m == n
  }

  /** Each user has at most one settings row. */
  predicate SettingsUnique(ss: seq<ChatSettings>)
  {
    forall s, t :: s in ss && t in ss && s.user == t.user ==> s == t
  }

  predicate HasProvider(ps: seq<Provider>, id: nat)
  {
    exists p :: p in ps && p.id == id
  }

  predicate HasModel(ms: seq<AiModel>, id: nat)
  {
    exists m :: m in ms && m.id == id
  }

  /** Every model belongs to a provider, and every default in a settings row exists. */
  predicate References(ps: seq<Provider>, ms: seq<AiModel>, ss: seq<ChatSettings>)
  {
    (forall m :: m in ms ==> HasProvider(ps, m.provider))
    && (forall s :: s in ss && s.defaultProvider.Some? ==> HasProvider(ps, s.defaultProvider.value))
    && (forall s :: s in ss && s.defaultModel.Some? ==> HasModel(ms, s.defaultModel.value))
  }

  /** At most one provider of `user` is the default. */
  predicate OneDefault(ps: seq<Provider>, user: nat)
  {
    forall p, q :: p in ps && q in ps && p.user == user && q.user == user && p.isDefault && q.isDefault ==> p == q
  }

  // ---------------------------------------------------------------------------
  // AIProvider.save and the cascading delete
  // ---------------------------------------------------------------------------

  /** `AIProvider.objects.filter(user=user, is_default=True).update(is_default=False)`. */
  function ClearDefaults(ps: seq<Provider>, user: nat): (r: seq<Provider>)
    ensures |r| == |ps|
    ensures forall i :: 0 <= i < |ps| ==> r[i] == (if ps[i].user == user then ps[i].(isDefault := false) else ps[i])
  {
    if ps == [] then []
    else [if ps[0].user == user then ps[0].(isDefault := false) else ps[0]] + ClearDefaults(ps[1..], user)
  }

  /** Writing a row: the row with its id is replaced, or the row is appended when its id is new. */
  function Upsert(ps: seq<Provider>, p: Provider): (r: seq<Provider>)
    ensures p in r
    ensures forall q :: q in r ==> q == p || (q in ps && q.id != p.id)
    ensures forall q :: q in ps && q.id != p.id ==> q in r
  {
    if ps == [] then [p]
    else if ps[0].id == p.id then [p] + Without(ps[1..], p.id)
    else [ps[0]] + Upsert(ps[1..], p)
  }

  function Without(ps: seq<Provider>, id: nat): (r: seq<Provider>)
    ensures forall q :: q in r <==> q in ps && q.id != id
  {
    if ps == [] then [] else (if ps[0].id == id then [] else [ps[0]]) + Without(ps[1..], id)
  }

  /** The name of `p` is already used by another provider of the same user. */
  predicate NameTaken(ps: seq<Provider>, p: Provider)
  {
    exists q :: q in ps && q.id != p.id && q.user == p.user && q.name == p.name
  }

  /** The rows after `AIProvider.save` succeeds. */
  function SaveProviderSpec(ps: seq<Provider>, p: Provider): (r: seq<Provider>)
  {
    Upsert(if p.isDefault then ClearDefaults(ps, p.user) else ps, p)
  }

  /** After clearing, no provider of the user is the default. */
  lemma ClearDefaultsNoDefault(ps: seq<Provider>, user: nat)
    ensures forall q :: q in ClearDefaults(ps, user) && q.user == user ==> !q.isDefault
  {
    var r := ClearDefaults(ps, user);
    forall q | q in r && q.user == user ensures !q.isDefault {
      var i :| 0 <= i < |r| && r[i] == q;
    }
  }

  /** Saving a default provider leaves it the only default provider of its user. */
  lemma SaveDefaultIsOnlyDefault(ps: seq<Provider>, p: Provider)
    requires p.isDefault
    ensures var r := SaveProviderSpec(ps, p);
      p in r && forall q :: q in r && q.user == p.user && q.isDefault ==> q == p
  {
    ClearDefaultsNoDefault(ps, p.user);
  }

  /** Saving a non-default provider leaves every other provider as it was. */
  lemma SaveNonDefaultKeepsOthers(ps: seq<Provider>, p: Provider)
    requires !p.isDefault
    ensures var r := SaveProviderSpec(ps, p);
      forall q :: q in ps && q.id != p.id ==> q in r
    ensures forall q :: q in SaveProviderSpec(ps, p) ==> q == p || q in ps
  {
  }

  /** A settings row with its references to deleted rows set to null (`on_delete=SET_NULL`). */
  function NullDeleted(s: ChatSettings, providerId: nat, ms: seq<AiModel>): (r: ChatSettings)
  {
    s.(defaultProvider := if s.defaultProvider == Some(providerId) then None else s.defaultProvider,
       defaultModel := if s.defaultModel.Some? && exists m :: m in ms && m.id == s.defaultModel.value && m.provider == providerId
                       then None else s.defaultModel)
  }

  function NullAll(ss: seq<ChatSettings>, providerId: nat, ms: seq<AiModel>): (r: seq<ChatSettings>)
    ensures |r| == |ss| && forall i :: 0 <= i < |ss| ==> r[i] == NullDeleted(ss[i], providerId, ms)
  {
    if ss == [] then [] else [NullDeleted(ss[0], providerId, ms)] + NullAll(ss[1..], providerId, ms)
  }

  function ModelsNotOf(ms: seq<AiModel>, providerId: nat): (r: seq<AiModel>)
    ensures forall m :: m in r <==> m in ms && m.provider != providerId
  {
    if ms == [] then [] else (if ms[0].provider == providerId then [] else [ms[0]]) + ModelsNotOf(ms[1..], providerId)
  }

  /** The chat tables. */
  class ChatDb {
    var conversations: seq<Conversation>
    var messages: seq<Message>
    var providers: seq<Provider>
    var models: seq<AiModel>
    var settings: seq<ChatSettings>
    /** Every id in use is below `nextId`; new rows take it. */
    var nextId: nat

    ghost predicate Valid()
      reads this
    {
      ProvidersUnique(providers) && ModelsUnique(models) && SettingsUnique(settings)
      && References(providers, models, settings)
      && (forall p :: p in providers ==> p.id < nextId)
      && (forall m :: m in models ==> m.id < nextId)
      && (forall c :: c in conversations ==> c.id < nextId)
      && (forall m :: m in messages ==> m.id < nextId)
    }

    constructor()
      ensures Valid()
      ensures conversations == [] && messages == [] && providers == [] && models == [] && settings == []
    {
      conversations, messages, providers, models, settings := [], [], [], [], [];
      nextId := 1;
    }

    /** The settings row of `user`, if there is one. */
    function SettingsOf(user: nat): (r: Option<ChatSettings>)
      reads this
      ensures r.Some? ==> r.value in settings && r.value.user == user
      ensures r.None? ==> forall s :: s in settings ==> s.user != user
    {
      FindSettings(settings, user)
    }

    /**
     * `AIProvider.save`: a default provider first clears the user's other
     * defaults; the write itself fails when the (user, name) pair is taken, and
     * the cleared defaults then stay cleared.
     */
    method SaveProvider(p: Provider) returns (ok: bool)
      requires Valid() && p.id <= nextId
      requires p.id < nextId ==> HasProvider(providers, p.id)
      modifies this
      ensures Valid()
      ensures var cleared := if p.isDefault then ClearDefaults(old(providers), p.user) else old(providers);
        (ok <==> !NameTaken(cleared, p))
        && providers == (if ok then Upsert(cleared, p) else cleared)
      ensures nextId == if ok && p.id == old(nextId) then old(nextId) + 1 else old(nextId)
      ensures conversations == old(conversations) && messages == old(messages)
      ensures models == old(models) && settings == old(settings)
    {
      var cleared := providers;
      if p.isDefault {
        ClearDefaultsValid(providers, p.user, models, settings, nextId);
        cleared := ClearDefaults(providers, p.user);
      }
      providers := cleared;
      if exists q :: q in cleared && q.id != p.id && q.user == p.user && q.name == p.name {
        return false;
      }
      UpsertValid(cleared, p, models, settings, nextId);
      providers := Upsert(cleared, p);
      if p.id == nextId {
        nextId := nextId + 1;
      }
      ok := true;
    }

    /** Deleting a provider deletes its models and nulls the settings that referenced either. */
    method DeleteProvider(id: nat)
      requires Valid()
      modifies this
      ensures Valid()
      ensures providers == Without(old(providers), id)
      ensures models == ModelsNotOf(old(models), id)
      ensures settings == NullAll(old(settings), id, old(models))
      ensures conversations == old(conversations) && messages == old(messages) && nextId == old(nextId)
    {
      var ms := models;
      NullAllValid(settings, providers, ms, id);
      providers := Without(providers, id);
      models := ModelsNotOf(models, id);
      settings := NullAll(settings, id, ms);
    }

    /** Adding a model of an existing provider; it fails when (provider, model id) is taken. */
    method AddModel(m: AiModel) returns (ok: bool, created: AiModel)
      requires Valid() && HasProvider(providers, m.provider)
      modifies this
      ensures Valid()
      ensures ok <==> !(exists n :: n in old(models) && n.provider == m.provider && n.modelId == m.modelId)
      ensures ok ==> created == m.(id := old(nextId)) && models == old(models) + [created] && nextId == old(nextId) + 1
      ensures !ok ==> models == old(models) && nextId == old(nextId)
      ensures conversations == old(conversations) && messages == old(messages)
      ensures providers == old(providers) && settings == old(settings)
    {
      created := m.(id := nextId);
      if exists n :: n in models && n.provider == m.provider && n.modelId == m.modelId {
        return false, created;
      }
      models := models + [created];
      nextId := nextId + 1;
      ok := true;
    }

    /** Writing a settings row that points at existing rows; the row of its user is replaced or created. */
    method PutSettings(s: ChatSettings)
      requires Valid()
      requires s.defaultProvider.Some? ==> HasProvider(providers, s.defaultProvider.value)
      requires s.defaultModel.Some? ==> HasModel(models, s.defaultModel.value)
      modifies this
      ensures Valid()
      ensures s in settings && forall t :: t in settings ==> t == s || (t in old(settings) && t.user != s.user)
      ensures forall t :: t in old(settings) && t.user != s.user ==> t in settings
      ensures FindSettings(settings, s.user) == Some(s)
      ensures forall v :: v != s.user ==> FindSettings(settings, v) == FindSettings(old(settings), v)
      ensures conversations == old(conversations) && messages == old(messages)
      ensures providers == old(providers) && models == old(models) && nextId == old(nextId)
    {
      ghost var ss := settings;
      settings := ReplaceSettings(settings, s);
      forall v ensures FindSettings(settings, v) == if v == s.user then Some(s) else FindSettings(ss, v) {
        ReplaceSettingsFind(ss, s, v);
      }
    }

    /** Creating a conversation row. */
    method AddConversation(user: nat, title: string, now: int) returns (c: Conversation)
      requires Valid()
      modifies this
      ensures Valid()
      ensures c == Conversation(old(nextId), user, title, now, true)
      ensures conversations == old(conversations) + [c] && nextId == old(nextId) + 1
      ensures messages == old(messages) && providers == old(providers)
      ensures models == old(models) && settings == old(settings)
    {
      c := Conversation(nextId, user, title, now, true);
      conversations := conversations + [c];
      nextId := nextId + 1;
    }

    /** Creating a message row. */
    method AddMessage(m: Message) returns (created: Message)
      requires Valid()
      modifies this
      ensures Valid()
      ensures created == m.(id := old(nextId))
      ensures messages == old(messages) + [created] && nextId == old(nextId) + 1
      ensures conversations == old(conversations) && providers == old(providers)
      ensures models == old(models) && settings == old(settings)
    {
      created := m.(id := nextId);
      messages := messages + [created];
      nextId := nextId + 1;
    }

    /** Deleting a conversation row; its messages go with it (`on_delete=CASCADE`). */
    method DeleteConversation(id: nat)
      requires Valid()
      modifies this
      ensures Valid()
      ensures conversations == ConversationsWithout(old(conversations), id)
      ensures messages == MessagesNotIn(old(messages), id)
      ensures providers == old(providers) && models == old(models)
      ensures settings == old(settings) && nextId == old(nextId)
    {
      conversations := ConversationsWithout(conversations, id);
      messages := MessagesNotIn(messages, id);
    }

    /** Replacing conversation rows in place, keeping their ids. */
    method PutConversations(cs: seq<Conversation>)
      requires Valid()
      requires forall c :: c in cs ==> c.id < nextId
      modifies this
      ensures Valid()
      ensures conversations == cs
      ensures messages == old(messages) && providers == old(providers) && models == old(models)
      ensures settings == old(settings) && nextId == old(nextId)
    {
      conversations := cs;
    }
  }

  function ConversationsWithout(cs: seq<Conversation>, id: nat): (r: seq<Conversation>)
    ensures forall c :: c in r <==> c in cs && c.id != id
  {
    if cs == [] then [] else (if cs[0].id == id then [] else [cs[0]]) + ConversationsWithout(cs[1..], id)
  }

  function MessagesNotIn(ms: seq<Message>, conversation: nat): (r: seq<Message>)
    ensures forall m :: m in r <==> m in ms && m.conversation != conversation
  {
    if ms == [] then [] else (if ms[0].conversation == conversation then [] else [ms[0]]) + MessagesNotIn(ms[1..], conversation)
  }

  function FindSettings(ss: seq<ChatSettings>, user: nat): (r: Option<ChatSettings>)
    ensures r.Some? ==> r.value in ss && r.value.user == user
    ensures r.None? ==> forall s :: s in ss ==> s.user != user
  {
    if ss == [] then None else if ss[0].user == user then Some(ss[0]) else FindSettings(ss[1..], user)
  }

  function ReplaceSettings(ss: seq<ChatSettings>, s: ChatSettings): (r: seq<ChatSettings>)
    ensures s in r
    ensures forall t :: t in r ==> t == s || (t in ss && t.user != s.user)
    ensures forall t :: t in ss && t.user != s.user ==> t in r
  {
    if ss == [] then [s]
    else if ss[0].user == s.user then ReplaceSettings(ss[1..], s)
    else [ss[0]] + ReplaceSettings(ss[1..], s)
  }

  /** After writing the row of `s.user`, that user finds `s` and every other user finds the row it had. */
  lemma ReplaceSettingsFind(ss: seq<ChatSettings>, s: ChatSettings, v: nat)
    requires SettingsUnique(ss)
    ensures FindSettings(ReplaceSettings(ss, s), v) == if v == s.user then Some(s) else FindSettings(ss, v)
  {
    var r := ReplaceSettings(ss, s);
    assert SettingsUnique(r);
    var t := if v == s.user then Some(s) else FindSettings(ss, v);
    if t.Some? {
      assert t.value in r;
    } else {
      assert forall u :: u in r && u.user == v ==> u in ss;
    }
  }

  /** Clearing defaults changes no row but its default flag. */
  lemma ClearDefaultsRows(ps: seq<Provider>, user: nat)
    ensures var r := ClearDefaults(ps, user);
      (forall q :: q in r ==> q in ps || q.(isDefault := true) in ps)
      && (forall q :: q in ps ==> q in r || q.(isDefault := false) in r)
  {
    var r := ClearDefaults(ps, user);
    forall q | q in r ensures q in ps || q.(isDefault := true) in ps {
      var i :| 0 <= i < |r| && r[i] == q;
      assert ps[i] in ps;
    }
    forall q | q in ps ensures q in r || q.(isDefault := false) in r {
      var i :| 0 <= i < |ps| && ps[i] == q;
      assert r[i] in r;
    }
  }

  /** Clearing defaults keeps the uniqueness rules. */
  lemma ClearDefaultsUnique(ps: seq<Provider>, user: nat)
    requires ProvidersUnique(ps)
    ensures ProvidersUnique(ClearDefaults(ps, user))
  {
    var r := ClearDefaults(ps, user);
    forall p, q | p in r && q in r && (p.id == q.id || (p.user == q.user && p.name == q.name)) ensures p == q {
      var i :| 0 <= i < |r| && r[i] == p;
      var j :| 0 <= j < |r| && r[j] == q;
      ClearDefaultsSameRow(ps, user, i, j);
    }
  }

  /** Two rows clearing agrees on the identity of came from rows that agree on it. */
  lemma ClearDefaultsSameRow(ps: seq<Provider>, user: nat, i: nat, j: nat)
    requires ProvidersUnique(ps) && i < |ps| && j < |ps|
    requires var r := ClearDefaults(ps, user); r[i].id == r[j].id || (r[i].user == r[j].user && r[i].name == r[j].name)
    ensures ClearDefaults(ps, user)[i] == ClearDefaults(ps, user)[j]
  {
    SameRow(ps, i, j);
  }

  lemma SameRow(ps: seq<Provider>, i: nat, j: nat)
    requires ProvidersUnique(ps) && i < |ps| && j < |ps|
    requires ps[i].id == ps[j].id || (ps[i].user == ps[j].user && ps[i].name == ps[j].name)
    ensures ps[i] == ps[j]
  {
    assert ps[i] in ps && ps[j] in ps;
  }

  /** Clearing defaults keeps the table valid with respect to the rest of the database. */
  lemma ClearDefaultsValid(ps: seq<Provider>, user: nat, ms: seq<AiModel>, ss: seq<ChatSettings>, bound: nat)
    requires ProvidersUnique(ps) && References(ps, ms, ss) && forall q :: q in ps ==> q.id < bound
    ensures var r := ClearDefaults(ps, user);
      ProvidersUnique(r) && References(r, ms, ss) && forall q :: q in r ==> q.id < bound
  {
    var r := ClearDefaults(ps, user);
    ClearDefaultsUnique(ps, user);
    ClearDefaultsRows(ps, user);
    forall id | HasProvider(ps, id) ensures HasProvider(r, id) {
      var q :| q in ps && q.id == id;
      if q !in r {
        assert q.(isDefault := false) in r;
      }
    }
    forall q | q in r ensures q.id < bound {
      if q !in ps {
        assert q.(isDefault := true) in ps;
      }
    }
  }

  /** A successful write keeps the table valid; a new row raises the id bound by one. */
  lemma UpsertValid(ps: seq<Provider>, p: Provider, ms: seq<AiModel>, ss: seq<ChatSettings>, bound: nat)
    requires ProvidersUnique(ps) && References(ps, ms, ss) && forall q :: q in ps ==> q.id < bound
    requires !NameTaken(ps, p) && p.id <= bound
    ensures var r := Upsert(ps, p);
      ProvidersUnique(r) && References(r, ms, ss)
      && forall q :: q in r ==> q.id < (if p.id == bound then bound + 1 else bound)
  {
    var r := Upsert(ps, p);
    forall id | HasProvider(ps, id) ensures HasProvider(r, id) {
      var q :| q in ps && q.id == id;
      if q.id == p.id {
        assert p in r;
      } else {
        assert q in r;
      }
    }
  }

  /** The cascade leaves no reference to a removed row. */
  lemma NullAllValid(ss: seq<ChatSettings>, ps: seq<Provider>, ms: seq<AiModel>, id: nat)
    requires SettingsUnique(ss) && References(ps, ms, ss) && ModelsUnique(ms)
    ensures var r := NullAll(ss, id, ms);
      SettingsUnique(r) && References(Without(ps, id), ModelsNotOf(ms, id), r)
  {
    var r := NullAll(ss, id, ms);
    var ps', ms' := Without(ps, id), ModelsNotOf(ms, id);
    forall s, t | s in r && t in r && s.user == t.user ensures s == t {
      var i :| 0 <= i < |r| && r[i] == s;
      var j :| 0 <= j < |r| && r[j] == t;
      assert ss[i] == ss[j];
    }
    forall m | m in ms' ensures HasProvider(ps', m.provider) {
      var p :| p in ps && p.id == m.provider;
      assert p in ps';
    }
    forall s | s in r && s.defaultProvider.Some? ensures HasProvider(ps', s.defaultProvider.value) {
      var i :| 0 <= i < |r| && r[i] == s;
      var p :| p in ps && p.id == s.defaultProvider.value;
      assert p in ps';
    }
    forall s | s in r && s.defaultModel.Some? ensures HasModel(ms', s.defaultModel.value) {
      var i :| 0 <= i < |r| && r[i] == s;
      var m :| m in ms && m.id == s.defaultModel.value;
      assert m in ms';
    }
  }
}
