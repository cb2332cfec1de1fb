/**
 * The agent's model manager (ai-news-agent/model_manager.py). It reads the AI
 * models configured in the backend and caches them for a day. It logs in to
 * the backend with a JWT that it reuses until five minutes before expiry. It
 * also keeps the model the agent currently uses.
 *
 * The backend's replies to one refresh are a parameter (`Backend`). The clock
 * is an integer `now` in seconds. The configuration names the manager reads
 * are a parameter (`Settings`).
 *
 * The manager's fields are gathered in a `Snapshot`. Each operation is
 * specified by a function from the old snapshot to the result and the new
 * snapshot. The class methods are proved equal to these functions, and the
 * lemmas state what the functions promise.
 */
module ModelManager {
  import opened Wrappers
  import opened Text
  import AgentConfig

  /** The `ModelConfig` dataclass; equality is field by field, as the dataclass's `==`. */
  datatype ModelConfig = ModelConfig(
    modelId: string, modelName: string, providerName: string, providerType: string,
    apiKey: string, apiBaseUrl: string, maxTokens: int, supportFunctions: bool, supportVision: bool)

  /** One entry of the backend's provider list; the optional keys may be missing. */
  datatype ProviderRow = ProviderRow(id: int, name: string, providerType: Option<string>, apiBaseUrl: Option<string>)

  /** One entry of the backend's model list; `provider` is the provider's id, or missing/null. */
  datatype ModelRow = ModelRow(
    modelId: string, modelName: string, provider: Option<int>, isActive: bool,
    providerName: Option<string>, maxTokens: Option<int>,
    supportFunctions: Option<bool>, supportVision: Option<bool>)

  /** The reply to the JWT login: a failure (non-200 or an exception) or a 200 body whose `access` may be missing. */
  datatype AuthReply = AuthFailed | AuthAnswered(access: Option<string>)

  /**
   * The backend's replies during one refresh: the login, the provider list
   * (`None` unless it answered 200) and the model list (`None` unless it
   * answered 200).
   */
  datatype Backend = Backend(auth: AuthReply, providers: Option<seq<ProviderRow>>, models: Option<seq<ModelRow>>)

  /** The configuration the manager reads: `BACKEND_API_TOKEN`, `SILICONFLOW_API_KEY` and `DEFAULT_MODEL_ID` ("" when unset). */
  datatype Settings = Settings(apiToken: string, siliconflowApiKey: string, defaultModelId: string)

  const CacheDuration: int := 86400
  const TokenLifetime: int := 3300
  const RefreshMargin: int := 300
  const PreferredName: string := "Qwen3-8B"
  const DefaultMaxTokens: int := 4096

  /** Python truthiness of an optional string: present and non-empty. */
  predicate Truthy(t: Option<string>)
  {
    t.Some? && t.value != ""
  }

  /**
   * The manager's fields: `models_cache` as its keys in insertion order plus
   * the entries, `providers_cache`, `current_model`, `cache_expiry`,
   * `jwt_token` and `token_expiry`.
   */
  datatype Snapshot = Snapshot(
    keys: seq<string>, entries: map<string, ModelConfig>, providers: map<int, ProviderRow>,
    current: Option<ModelConfig>, expiry: int, jwt: Option<string>, jwtExpiry: int)

  /** The fields `__init__` sets. */
  const Initial: Snapshot := Snapshot([], map[], map[], None, 0, None, 0)

  /** The keys of the models cache are distinct and are its entries; each entry is stored under its own model id. */
  ghost predicate WellFormed(st: Snapshot)
  {
    && (forall i, j :: 0 <= i < j < |st.keys| ==> st.keys[i] != st.keys[j])
    && (forall k :: k in st.entries <==> k in st.keys)
    && (forall k :: k in st.entries ==> st.entries[k].modelId == k)
  }

  // ---------------------------------------------------------------- login

  /** The stored JWT is reused: it is truthy and more than five minutes from expiry. */
  predicate Reusable(st: Snapshot, now: int)
  {
    Truthy(st.jwt) && now < st.jwtExpiry - RefreshMargin
  }

  datatype Auth = Auth(ok: bool, after: Snapshot)

  /** `_authenticate_jwt`: the verdict and the new fields. */
  function Authenticate(st: Snapshot, now: int, reply: AuthReply): (r: Auth)
    ensures r.after == st.(jwt := r.after.jwt, jwtExpiry := r.after.jwtExpiry)
    ensures r.ok <==> Reusable(st, now) || (reply.AuthAnswered? && Truthy(reply.access))
    ensures r.ok ==> Truthy(r.after.jwt)
    ensures Reusable(st, now) || reply.AuthFailed? ==> r.after == st
    ensures !Reusable(st, now) && reply.AuthAnswered? ==> r.after.jwt == reply.access
  {
    if Reusable(st, now) then Auth(true, st)
    else
      match reply {
        case AuthFailed => Auth(false, st)
        case AuthAnswered(access) =>
          if Truthy(access) then Auth(true, st.(jwt := access, jwtExpiry := now + TokenLifetime))
          else Auth(false, st.(jwt := access))
      }
  }

  /**
   * A fresh login at `now` is reused exactly until 3000 seconds later: the
   * 3300-second expiry less the five-minute margin.
   */
  lemma TokenWindow(st: Snapshot, now: int, reply: AuthReply)
    requires !Reusable(st, now) && reply.AuthAnswered? && Truthy(reply.access)
    ensures var a := Authenticate(st, now, reply);
      a.ok && a.after.jwt == reply.access
      && forall t :: Reusable(a.after, t) <==> t < now + TokenLifetime - RefreshMargin
  {
  }

  /** A 200 login without an `access` token replaces the stored token, so a stale one is not reused afterwards. */
  lemma MissingAccessDropsToken(st: Snapshot, now: int, later: int)
    requires !Reusable(st, now)
    ensures var a := Authenticate(st, now, AuthAnswered(None));
      !a.ok && a.after.jwt.None? && !Reusable(a.after, later)
  {
  }

  // ------------------------------------------------------------- fetching

  /** `{provider['id']: provider for provider in providers_data}`. */
  function ProviderMap(ps: seq<ProviderRow>): (m: map<int, ProviderRow>)
    ensures ps != [] ==> ps[|ps| - 1].id in m && m[ps[|ps| - 1].id] == ps[|ps| - 1]
  {
    if ps == [] then map[]
    else ProviderMap(ps[..|ps| - 1])[ps[|ps| - 1].id := ps[|ps| - 1]]
  }

  /** The map's ids are exactly the listed ids. */
  lemma {:induction false} ProviderMapDomain(ps: seq<ProviderRow>)
    ensures forall k :: 0 <= k < |ps| ==> ps[k].id in ProviderMap(ps)
    ensures forall id :: id in ProviderMap(ps) ==> exists k :: 0 <= k < |ps| && ps[k].id == id
  {
    if ps != [] {
      var n := |ps| - 1;
      ProviderMapDomain(ps[..n]);
      assert forall k :: 0 <= k < n ==> ps[..n][k] == ps[k];
    }
  }

  /** A provider listed twice is mapped to its last listing. */
  lemma {:induction false} ProviderMapLast(ps: seq<ProviderRow>, k: nat)
    requires k < |ps|
    requires forall j :: k < j < |ps| ==> ps[j].id != ps[k].id
    ensures ps[k].id in ProviderMap(ps) && ProviderMap(ps)[ps[k].id] == ps[k]
  {
    var n := |ps| - 1;
    if k < n {
      assert forall j :: k < j < n ==> ps[..n][j] == ps[j];
      ProviderMapLast(ps[..n], k);
      assert ps[..n][k] == ps[k];
    }
  }

  /** The models a fetch keeps: active, with a non-zero provider id that the provider list contains. */
  predicate Usable(m: ModelRow, pm: map<int, ProviderRow>)
  {
    m.isActive && m.provider.Some? && m.provider.value != 0 && m.provider.value in pm
  }

  /** The `ModelConfig` built for a usable model, with each missing key's default. */
  function Configure(m: ModelRow, p: ProviderRow, s: Settings): ModelConfig
  {
    ModelConfig(
      m.modelId, m.modelName,
      if m.providerName.Some? then m.providerName.value else p.name,
      if p.providerType.Some? then p.providerType.value else "unknown",
      s.siliconflowApiKey,
      if p.apiBaseUrl.Some? then p.apiBaseUrl.value else AgentConfig.SiliconflowBaseUrl,
      if m.maxTokens.Some? then m.maxTokens.value else DefaultMaxTokens,
      m.supportFunctions.Some? && m.supportFunctions.value,
      m.supportVision.Some? && m.supportVision.value)
  }

  /** The config a usable row becomes. */
  function ConfigOf(m: ModelRow, pm: map<int, ProviderRow>, s: Settings): ModelConfig
    requires Usable(m, pm)
  {
    Configure(m, pm[m.provider.value], s)
  }

  /** `all_models`: the usable rows, in order, as configs. */
  function Accepted(rows: seq<ModelRow>, pm: map<int, ProviderRow>, s: Settings): (r: seq<ModelConfig>)
    ensures |r| <= |rows|
  {
    if rows == [] then []
    else
      var n := |rows| - 1;
      var front := Accepted(rows[..n], pm, s);
      if Usable(rows[n], pm) then front + [ConfigOf(rows[n], pm, s)] else front
  }

  /** A fetch keeps a model exactly when it is usable. */
  lemma {:induction false} AcceptedMembers(rows: seq<ModelRow>, pm: map<int, ProviderRow>, s: Settings)
    ensures forall c :: c in Accepted(rows, pm, s) ==>
      exists k :: 0 <= k < |rows| && Usable(rows[k], pm) && c == ConfigOf(rows[k], pm, s)
    ensures forall k :: 0 <= k < |rows| && Usable(rows[k], pm) ==> ConfigOf(rows[k], pm, s) in Accepted(rows, pm, s)
  {
    if rows != [] {
      var n := |rows| - 1;
      var front, r := Accepted(rows[..n], pm, s), Accepted(rows, pm, s);
      AcceptedMembers(rows[..n], pm, s);
      assert r == if Usable(rows[n], pm) then front + [ConfigOf(rows[n], pm, s)] else front;
      forall c | c in r
        ensures exists k :: 0 <= k < |rows| && Usable(rows[k], pm) && c == ConfigOf(rows[k], pm, s)
      {
        if c in front {
          var k :| 0 <= k < n && Usable(rows[..n][k], pm) && c == ConfigOf(rows[..n][k], pm, s);
          assert rows[..n][k] == rows[k];
        } else {
          assert c == ConfigOf(rows[n], pm, s);
        }
      }
      forall k | 0 <= k < |rows| && Usable(rows[k], pm) ensures ConfigOf(rows[k], pm, s) in r {
        if k < n {
          assert rows[..n][k] == rows[k];
        }
      }
    }
  }

  /** The cache's key order after storing `cs`: a new id goes last, a known id keeps its place. */
  function InsertKeys(keys: seq<string>, cs: seq<ModelConfig>): (r: seq<string>)
    ensures keys <= r
  {
    if cs == [] then keys
    else
      var n := |cs| - 1;
      var front := InsertKeys(keys, cs[..n]);
      if cs[n].modelId in front then front else front + [cs[n].modelId]
  }

  /** The cache's entries after `self.models_cache[model_id] = config` for each of `cs`. */
  function InsertEntries(entries: map<string, ModelConfig>, cs: seq<ModelConfig>): (r: map<string, ModelConfig>)
    ensures entries.Keys <= r.Keys
  {
    if cs == [] then entries
    else InsertEntries(entries, cs[..|cs| - 1])[cs[|cs| - 1].modelId := cs[|cs| - 1]]
  }

  /** The key order holds the old keys and the stored ids. */
  lemma {:induction false} InsertKeysMembers(keys: seq<string>, cs: seq<ModelConfig>)
    ensures forall k :: k in InsertKeys(keys, cs) <==> k in keys || exists c :: c in cs && c.modelId == k
  {
    if cs != [] {
      var n := |cs| - 1;
      var front, r := InsertKeys(keys, cs[..n]), InsertKeys(keys, cs);
      InsertKeysMembers(keys, cs[..n]);
      assert r == if cs[n].modelId in front then front else front + [cs[n].modelId];
      assert forall c :: c in cs <==> c in cs[..n] || c == cs[n];
      forall k ensures k in r <==> k in keys || exists c :: c in cs && c.modelId == k {
        if k == cs[n].modelId {
          assert cs[n] in cs;
          if k !in front {
            assert r[|front|] == k;
          }
        } else {
          if exists c :: c in cs && c.modelId == k {
            var c :| c in cs && c.modelId == k;
            assert c in cs[..n];
          }
          if exists c :: c in cs[..n] && c.modelId == k {
            var c :| c in cs[..n] && c.modelId == k;
            assert c in cs;
          }
        }
      }
    }
  }

  /** The key order stays free of repeats. */
  lemma {:induction false} InsertKeysDistinct(keys: seq<string>, cs: seq<ModelConfig>)
    requires forall i, j :: 0 <= i < j < |keys| ==> keys[i] != keys[j]
    ensures forall i, j :: 0 <= i < j < |InsertKeys(keys, cs)| ==> InsertKeys(keys, cs)[i] != InsertKeys(keys, cs)[j]
  {
    if cs != [] {
      var n := |cs| - 1;
      var front, r := InsertKeys(keys, cs[..n]), InsertKeys(keys, cs);
      InsertKeysDistinct(keys, cs[..n]);
      if cs[n].modelId !in front {
        assert r == front + [cs[n].modelId];
        forall i, j | 0 <= i < j < |r| ensures r[i] != r[j] {
          if j == |front| {
            assert r[j] == cs[n].modelId && r[i] == front[i] && front[i] in front;
          } else {
            assert r[i] == front[i] && r[j] == front[j];
          }
        }
      }
    }
  }

  /** The entries are the old ones plus the stored ids. */
  lemma {:induction false} InsertEntriesMembers(entries: map<string, ModelConfig>, cs: seq<ModelConfig>)
    ensures forall k :: k in InsertEntries(entries, cs) <==> k in entries || exists c :: c in cs && c.modelId == k
  {
    if cs != [] {
      var n := |cs| - 1;
      var front, r := InsertEntries(entries, cs[..n]), InsertEntries(entries, cs);
      InsertEntriesMembers(entries, cs[..n]);
      assert r == front[cs[n].modelId := cs[n]];
      assert forall c :: c in cs <==> c in cs[..n] || c == cs[n];
      forall k ensures k in r <==> k in entries || exists c :: c in cs && c.modelId == k {
        if k == cs[n].modelId {
          assert cs[n] in cs;
        } else {
          if exists c :: c in cs && c.modelId == k {
            var c :| c in cs && c.modelId == k;
            assert c in cs[..n];
          }
          if exists c :: c in cs[..n] && c.modelId == k {
            var c :| c in cs[..n] && c.modelId == k;
            assert c in cs;
          }
        }
      }
    }
  }

  /** An id stored nowhere keeps its entry, and entries stay keyed by their model id. */
  lemma {:induction false} InsertEntriesKeeps(entries: map<string, ModelConfig>, cs: seq<ModelConfig>)
    ensures forall k :: k in entries && (forall c :: c in cs ==> c.modelId != k) ==>
      InsertEntries(entries, cs)[k] == entries[k]
    ensures (forall k :: k in entries ==> entries[k].modelId == k) ==>
      var r := InsertEntries(entries, cs); forall k :: k in r ==> r[k].modelId == k
  {
    forall k | k in entries && (forall c :: c in cs ==> c.modelId != k)
      ensures InsertEntries(entries, cs)[k] == entries[k]
    {
      InsertEntriesOther(entries, cs, k);
    }
    if forall k :: k in entries ==> entries[k].modelId == k {
      InsertEntriesKeyed(entries, cs);
    }
  }

  lemma {:induction false} InsertEntriesOther(entries: map<string, ModelConfig>, cs: seq<ModelConfig>, k: string)
    requires k in entries && forall c :: c in cs ==> c.modelId != k
    ensures InsertEntries(entries, cs)[k] == entries[k]
  {
    if cs != [] {
      var n := |cs| - 1;
      assert cs[n] in cs;
      assert forall c :: c in cs[..n] ==> c in cs;
      InsertEntriesOther(entries, cs[..n], k);
    }
  }

  lemma {:induction false} InsertEntriesKeyed(entries: map<string, ModelConfig>, cs: seq<ModelConfig>)
    requires forall k :: k in entries ==> entries[k].modelId == k
    ensures var r := InsertEntries(entries, cs); forall k :: k in r ==> r[k].modelId == k
  {
    if cs != [] {
      var n := |cs| - 1;
      InsertEntriesKeyed(entries, cs[..n]);
      assert InsertEntries(entries, cs) == InsertEntries(entries, cs[..n])[cs[n].modelId := cs[n]];
    }
  }

  /** `list(self.models_cache.values())`: the entries in key order. */
  function Values(keys: seq<string>, entries: map<string, ModelConfig>): (r: seq<ModelConfig>)
    requires forall k :: k in keys ==> k in entries
    ensures |r| == |keys|
  {
    if keys == [] then []
    else
      var n := |keys| - 1;
      assert forall k :: k in keys[..n] ==> k in keys;
      Values(keys[..n], entries) + [entries[keys[n]]]
  }

  /** The `i`-th value is the entry of the `i`-th key. */
  lemma {:induction false} ValuesAt(keys: seq<string>, entries: map<string, ModelConfig>)
    requires forall k :: k in keys ==> k in entries
    ensures forall i :: 0 <= i < |keys| ==> Values(keys, entries)[i] == entries[keys[i]]
  {
    if keys != [] {
      var n := |keys| - 1;
      assert forall k :: k in keys[..n] ==> k in keys;
      ValuesAt(keys[..n], entries);
      assert forall i :: 0 <= i < n ==> keys[..n][i] == keys[i];
    }
  }

  /** `_get_default_models`' one model. */
  function DefaultModel(s: Settings): ModelConfig
  {
    ModelConfig(s.defaultModelId, "Qwen3-8B", "SiliconFlow", "siliconflow", s.siliconflowApiKey,
                AgentConfig.SiliconflowBaseUrl, DefaultMaxTokens, false, false)
  }

  /** The cache is still valid: not forced, set, and not yet expired. */
  predicate CacheFresh(st: Snapshot, force: bool, now: int)
  {
    !force && st.expiry > 0 && now < st.expiry
  }

  /** A refresh that got the provider list: not served from the cache, logged in or holding an API token, and a 200 on providers. */
  predicate Reached(st: Snapshot, force: bool, now: int, s: Settings, b: Backend)
  {
    !CacheFresh(st, force, now)
    && (Authenticate(st, now, b.auth).ok || s.apiToken != "")
    && b.providers.Some?
  }

  datatype Fetched = Fetched(models: seq<ModelConfig>, after: Snapshot)

  /** The models a refresh that reached the backend returns: the usable ones, or none when the model list failed. */
  function Listed(b: Backend, s: Settings): (r: seq<ModelConfig>)
    requires b.providers.Some?
  {
    if b.models.Some? then Accepted(b.models.value, ProviderMap(b.providers.value), s) else []
  }

  /** `get_available_models(force_refresh)`: the models returned and the new fields. */
  function Refresh(st: Snapshot, force: bool, now: int, s: Settings, b: Backend): (f: Fetched)
    requires WellFormed(st)
  {
    if CacheFresh(st, force, now) then Fetched(Values(st.keys, st.entries), st)
    else
      var auth := Authenticate(st, now, b.auth);
      if !Reached(st, force, now, s, b) then Fetched([DefaultModel(s)], auth.after)
      else
        var all := Listed(b, s);
        Fetched(all, auth.after.(keys := InsertKeys(st.keys, all), entries := InsertEntries(st.entries, all),
                                 providers := st.providers + ProviderMap(b.providers.value),
                                 expiry := now + CacheDuration))
  }

  /** A fresh cache is served as it is, in insertion order, and nothing changes. */
  lemma RefreshFromCache(st: Snapshot, force: bool, now: int, s: Settings, b: Backend)
    requires WellFormed(st) && CacheFresh(st, force, now)
    ensures var f := Refresh(st, force, now, s, b);
      f.after == st && |f.models| == |st.keys|
      && forall i :: 0 <= i < |st.keys| ==> f.models[i] == st.entries[st.keys[i]]
  {
    ValuesAt(st.keys, st.entries);
  }

  /**
   * A refresh that cannot reach the backend returns the default model; only
   * the login fields may change, so the caches, their expiry and the current
   * model stay as they were.
   */
  lemma RefreshUnreached(st: Snapshot, force: bool, now: int, s: Settings, b: Backend)
    requires WellFormed(st) && !CacheFresh(st, force, now) && !Reached(st, force, now, s, b)
    ensures var f := Refresh(st, force, now, s, b);
      f.models == [DefaultModel(s)] && f.after == Authenticate(st, now, b.auth).after
      && f.after.keys == st.keys && f.after.entries == st.entries && f.after.providers == st.providers
      && f.after.expiry == st.expiry && f.after.current == st.current
  {
  }

  /**
   * A refresh that reaches the backend returns exactly the usable models,
   * stores each of them under its id, records every listed provider and
   * restarts the day-long expiry; the current model stays as it was.
   */
  lemma RefreshReached(st: Snapshot, force: bool, now: int, s: Settings, b: Backend)
    requires WellFormed(st) && Reached(st, force, now, s, b)
    ensures var f := Refresh(st, force, now, s, b);
      && f.after.expiry == now + CacheDuration && f.after.current == st.current
      && (b.models.None? ==> f.models == [])
      && (b.models.Some? ==>
            var rows, pm := b.models.value, ProviderMap(b.providers.value);
            && (forall c :: c in f.models ==> exists k :: 0 <= k < |rows| && Usable(rows[k], pm) && c == ConfigOf(rows[k], pm, s))
            && (forall k :: 0 <= k < |rows| && Usable(rows[k], pm) ==> ConfigOf(rows[k], pm, s) in f.models))
      && (forall c :: c in f.models ==> c.modelId in f.after.entries)
      && (forall p :: p in b.providers.value ==> p.id in f.after.providers)
  {
    var f := Refresh(st, force, now, s, b);
    var ps := b.providers.value;
    if b.models.Some? {
      AcceptedMembers(b.models.value, ProviderMap(ps), s);
    }
    InsertEntriesMembers(st.entries, f.models);
    ProviderMapDomain(ps);
    forall p | p in ps ensures p.id in f.after.providers {
      var k :| 0 <= k < |ps| && ps[k] == p;
    }
  }

  /** Storing models keeps the cache well formed, whatever the other fields are. */
  lemma InsertWellFormed(st: Snapshot, cs: seq<ModelConfig>, t: Snapshot)
    requires WellFormed(st)
    requires t.keys == InsertKeys(st.keys, cs) && t.entries == InsertEntries(st.entries, cs)
    ensures WellFormed(t)
  {
    InsertKeysMembers(st.keys, cs);
    InsertKeysDistinct(st.keys, cs);
    InsertEntriesMembers(st.entries, cs);
    InsertEntriesKeeps(st.entries, cs);
  }

  /** A refresh keeps the cache well formed. */
  lemma RefreshWellFormed(st: Snapshot, force: bool, now: int, s: Settings, b: Backend)
    requires WellFormed(st)
    ensures WellFormed(Refresh(st, force, now, s, b).after)
  {
    var f := Refresh(st, force, now, s, b);
    if Reached(st, force, now, s, b) {
      InsertWellFormed(st, f.models, f.after);
    } else if !CacheFresh(st, force, now) {
      assert f.after == st.(jwt := f.after.jwt, jwtExpiry := f.after.jwtExpiry);
    }
  }

  /**
   * `models_cache` only grows: every key keeps its place at the front of the
   * key order, and an entry changes only when a returned model has its id.
   */
  lemma CacheOnlyGrows(st: Snapshot, force: bool, now: int, s: Settings, b: Backend)
    requires WellFormed(st)
    ensures var f := Refresh(st, force, now, s, b);
      && st.keys <= f.after.keys
      && (forall k :: k in st.entries ==> k in f.after.entries)
      && (forall k :: k in st.entries && (forall c :: c in f.models ==> c.modelId != k) ==>
            f.after.entries[k] == st.entries[k])
      && (forall id :: id in st.providers ==> id in f.after.providers)
  {
    var f := Refresh(st, force, now, s, b);
    if Reached(st, force, now, s, b) {
      InsertEntriesKeeps(st.entries, f.models);
    }
  }

  /** After a refresh that reached the backend, the cache is served exactly until a day later. */
  lemma ExpiryWindow(st: Snapshot, force: bool, now: int, s: Settings, b: Backend)
    requires WellFormed(st) && now >= 0 && Reached(st, force, now, s, b)
    ensures var f := Refresh(st, force, now, s, b);
      forall t :: CacheFresh(f.after, false, t) <==> t < now + CacheDuration
  {
  }

  /** No refresh changes the current model. */
  lemma RefreshKeepsCurrent(st: Snapshot, force: bool, now: int, s: Settings, b: Backend)
    requires WellFormed(st)
    ensures Refresh(st, force, now, s, b).after.current == st.current
  {
  }

  // ------------------------------------------------------------ selection

  /** What a lookup looks for: a model id, a model name or id, or a mention of `Qwen3-8B`. */
  datatype Criterion = WithId(id: string) | Named(name: string) | MentionsPreferred

  predicate Matches(c: Criterion, m: ModelConfig)
  {
    match c {
      case WithId(id) => m.modelId == id
      case Named(name) => m.modelName == name || m.modelId == name
      case MentionsPreferred => Contains(m.modelId, PreferredName) || Contains(m.modelName, PreferredName)
    }
  }

  /** The index a `for ... if ...: return` loop stops at. */
  function FirstMatch(ms: seq<ModelConfig>, c: Criterion): (r: Option<nat>)
    ensures r.Some? ==> r.value < |ms| && Matches(c, ms[r.value])
    ensures r.Some? ==> forall j :: 0 <= j < r.value ==> !Matches(c, ms[j])
    ensures r.None? ==> forall j :: 0 <= j < |ms| ==> !Matches(c, ms[j])
  {
    if ms == [] then None
    else if Matches(c, ms[0]) then Some(0)
    else
      var rest := FirstMatch(ms[1..], c);
      assert forall j :: 1 <= j < |ms| ==> ms[1..][j - 1] == ms[j];
      if rest.Some? then Some(rest.value + 1) else None
  }

  function Find(ms: seq<ModelConfig>, c: Criterion): (r: Option<ModelConfig>)
  {
    var k := FirstMatch(ms, c);
    if k.Some? then Some(ms[k.value]) else None
  }

  datatype Chosen = Chosen(model: Option<ModelConfig>, after: Snapshot)

  /** `select_model(model_id)`. */
  function Select(st: Snapshot, id: string, now: int, s: Settings, b: Backend): (r: Chosen)
    requires WellFormed(st)
  {
    if id in st.entries then Chosen(Some(st.entries[id]), st.(current := Some(st.entries[id])))
    else
      var f := Refresh(st, true, now, s, b);
      var found := Find(f.models, WithId(id));
      Chosen(found, if found.Some? then f.after.(current := found) else f.after)
  }

  /**
   * A selected model has the requested id and becomes the current one. A
   * cached id is selected without any request. An id found nowhere leaves
   * `current_model` as it was, after a forced refresh had none with that id.
   */
  lemma SelectFacts(st: Snapshot, id: string, now: int, s: Settings, b: Backend)
    requires WellFormed(st)
    ensures var r := Select(st, id, now, s, b);
      && (r.model.Some? ==> r.model.value.modelId == id && r.after.current == r.model)
      && (id in st.entries ==> r.model == Some(st.entries[id]) && r.after == st.(current := r.model))
      && (r.model.None? ==>
            id !in st.entries && r.after.current == st.current
            && forall m :: m in Refresh(st, true, now, s, b).models ==> m.modelId != id)
  {
    var f := Refresh(st, true, now, s, b);
    RefreshKeepsCurrent(st, true, now, s, b);
    if Select(st, id, now, s, b).model.None? && id !in st.entries {
      forall m | m in f.models ensures m.modelId != id {
        var j :| 0 <= j < |f.models| && f.models[j] == m;
      }
    }
  }

  /** The model `get_current_model` picks from a non-empty list. */
  function Preferred(ms: seq<ModelConfig>): (m: ModelConfig)
    requires ms != []
  {
    var k := FirstMatch(ms, MentionsPreferred);
    if k.Some? then ms[k.value] else ms[0]
  }

  /** The pick is the first model whose id or name contains `Qwen3-8B`, or the first model when none does. */
  lemma PreferredFacts(ms: seq<ModelConfig>)
    requires ms != []
    ensures Preferred(ms) in ms
    ensures (exists j :: 0 <= j < |ms| && Matches(MentionsPreferred, ms[j])) ==>
      exists k :: 0 <= k < |ms| && Preferred(ms) == ms[k] && Matches(MentionsPreferred, ms[k])
                  && forall j :: 0 <= j < k ==> !Matches(MentionsPreferred, ms[j])
    ensures (forall j :: 0 <= j < |ms| ==> !Matches(MentionsPreferred, ms[j])) ==> Preferred(ms) == ms[0]
  {
  }

  /** `get_current_model()`. */
  function Current(st: Snapshot, now: int, s: Settings, b: Backend): (r: Chosen)
    requires WellFormed(st)
  {
    if st.current.Some? then Chosen(st.current, st)
    else
      var f := Refresh(st, false, now, s, b);
      if f.models == [] then Chosen(None, f.after)
      else Chosen(Some(Preferred(f.models)), f.after.(current := Some(Preferred(f.models))))
  }

  /**
   * A set current model is returned with no request and no change. An unset
   * one is picked from the available models, is `None` only when there are
   * none, and is kept: the next call returns it unchanged whatever the
   * backend answers then.
   */
  lemma CurrentFacts(st: Snapshot, now: int, s: Settings, b: Backend, later: int, b2: Backend)
    requires WellFormed(st)
    ensures var r := Current(st, now, s, b);
      && (st.current.Some? ==> r == Chosen(st.current, st))
      && (st.current.None? ==>
            var ms := Refresh(st, false, now, s, b).models;
            (r.model.None? <==> ms == []) && (r.model.Some? ==> r.model.value in ms && r.model == Some(Preferred(ms))))
      && r.after.current == r.model
      && WellFormed(r.after)
      && (r.model.Some? ==> Current(r.after, later, s, b2) == Chosen(r.model, r.after))
  {
    if st.current.None? {
      RefreshKeepsCurrent(st, false, now, s, b);
      RefreshWellFormed(st, false, now, s, b);
      var ms := Refresh(st, false, now, s, b).models;
      if ms != [] {
        PreferredFacts(ms);
      }
    }
  }

  /** `get_model_by_name(name)`: the first model with that name or id, after an unforced refresh. */
  function ByName(st: Snapshot, name: string, now: int, s: Settings, b: Backend): (r: Chosen)
    requires WellFormed(st)
  {
    var f := Refresh(st, false, now, s, b);
    Chosen(Find(f.models, Named(name)), f.after)
  }

  /** A model found by name is an available one whose name or id is the one asked; none is found only when no model has it. */
  lemma ByNameFacts(st: Snapshot, name: string, now: int, s: Settings, b: Backend)
    requires WellFormed(st)
    ensures var ms := Refresh(st, false, now, s, b).models;
      var r := ByName(st, name, now, s, b);
      && r.after.current == st.current
      && (r.model.Some? ==> r.model.value in ms && (r.model.value.modelName == name || r.model.value.modelId == name))
      && (r.model.None? ==> forall m :: m in ms ==> m.modelName != name && m.modelId != name)
  {
    RefreshKeepsCurrent(st, false, now, s, b);
    var ms := Refresh(st, false, now, s, b).models;
    if ByName(st, name, now, s, b).model.None? {
      forall m | m in ms ensures m.modelName != name && m.modelId != name {
        var j :| 0 <= j < |ms| && ms[j] == m;
        assert !Matches(Named(name), ms[j]);
      }
    }
  }

  /** One entry of `list_models_summary`. */
  datatype ModelSummary = ModelSummary(
    modelId: string, modelName: string, providerName: string, providerType: string,
    maxTokens: int, supportFunctions: bool, supportVision: bool, isCurrent: bool)

  function Summarize(m: ModelConfig, current: Option<ModelConfig>): ModelSummary
  {
    ModelSummary(m.modelId, m.modelName, m.providerName, m.providerType,
                 m.maxTokens, m.supportFunctions, m.supportVision, current == Some(m))
  }

  /** The summary keeps every field but the key and the base URL; `is_current` holds exactly for a model equal to the current one. */
  lemma SummarizeFacts(m: ModelConfig, current: Option<ModelConfig>)
    ensures var e := Summarize(m, current);
      && (e.isCurrent <==> current.Some? && current.value == m)
      && e.modelId == m.modelId && e.modelName == m.modelName
      && e.providerName == m.providerName && e.providerType == m.providerType
      && e.maxTokens == m.maxTokens && e.supportFunctions == m.supportFunctions && e.supportVision == m.supportVision
  {
  }

  /** With no current model, no summary entry is current. */
  lemma NoCurrentNoneMarked(ms: seq<ModelConfig>)
    ensures forall i :: 0 <= i < |ms| ==> !Summarize(ms[i], None).isCurrent
  {
  }

  // ---------------------------------------------------------------- class

  class Manager {
    var cacheKeys: seq<string>
    var modelsCache: map<string, ModelConfig>
    var providersCache: map<int, ProviderRow>
    var currentModel: Option<ModelConfig>
    var cacheExpiry: int
    var jwtToken: Option<string>
    var tokenExpiry: int

    function State(): Snapshot
      reads this
    {
      Snapshot(cacheKeys, modelsCache, providersCache, currentModel, cacheExpiry, jwtToken, tokenExpiry)
    }

    ghost predicate Valid()
      reads this
    {
      WellFormed(State())
    }

    constructor ()
      ensures State() == Initial && Valid()
    {
      cacheKeys, modelsCache, providersCache := [], map[], map[];
      currentModel, cacheExpiry := None, 0;
      jwtToken, tokenExpiry := None, 0;
    }

    /** `_authenticate_jwt`. */
    method AuthenticateJwt(now: int, reply: AuthReply) returns (ok: bool)
      modifies this
      ensures Auth(ok, State()) == Authenticate(old(State()), now, reply)
    {
      if Truthy(jwtToken) && now < tokenExpiry - RefreshMargin {
        return true;
      }
      match reply {
        case AuthFailed =>
          ok := false;
        case AuthAnswered(access) =>
          jwtToken := access;
          if Truthy(jwtToken) {
            tokenExpiry := now + TokenLifetime;
            ok := true;
          } else {
            ok := false;
          }
      }
    }

    /** `_get_auth_headers`. */
    function AuthHeaders(s: Settings): (h: map<string, string>)
      reads this
      ensures h.Keys <= {"Content-Type", "Authorization"}
      ensures "Content-Type" in h && h["Content-Type"] == "application/json"
      ensures Truthy(jwtToken) ==> "Authorization" in h && h["Authorization"] == "Bearer " + jwtToken.value
      ensures !Truthy(jwtToken) && s.apiToken != "" ==> "Authorization" in h && h["Authorization"] == "Token " + s.apiToken
      ensures !Truthy(jwtToken) && s.apiToken == "" ==> "Authorization" !in h
    {
      var base := map["Content-Type" := "application/json"];
      if Truthy(jwtToken) then base["Authorization" := "Bearer " + jwtToken.value]
      else if s.apiToken != "" then base["Authorization" := "Token " + s.apiToken]
      else base
    }

    /** `list(self.models_cache.values())`. */
    method CachedModels() returns (ms: seq<ModelConfig>)
      requires Valid()
      ensures ms == Values(cacheKeys, modelsCache)
    {
      ms := [];
      var i := 0;
      while i < |cacheKeys|
        invariant 0 <= i <= |cacheKeys|
        invariant ms == Values(cacheKeys[..i], modelsCache)
      {
        assert cacheKeys[..i + 1][..i] == cacheKeys[..i];
        ms := ms + [modelsCache[cacheKeys[i]]];
        i := i + 1;
      }
      assert cacheKeys[..|cacheKeys|] == cacheKeys;
    }

    /** The loop over the model list: keep the usable rows and store each in the cache. */
    method AddModels(rows: seq<ModelRow>, pm: map<int, ProviderRow>, s: Settings) returns (all: seq<ModelConfig>)
      modifies this
      ensures all == Accepted(rows, pm, s)
      ensures State() == old(State()).(keys := InsertKeys(old(cacheKeys), all), entries := InsertEntries(old(modelsCache), all))
    {
      all := [];
      var i := 0;
      while i < |rows|
        invariant 0 <= i <= |rows|
        invariant all == Accepted(rows[..i], pm, s)
        invariant State() == old(State()).(keys := InsertKeys(old(cacheKeys), all), entries := InsertEntries(old(modelsCache), all))
      {
        assert rows[..i + 1][..i] == rows[..i];
        var m := rows[i];
        if m.isActive && m.provider.Some? && m.provider.value != 0 && m.provider.value in pm {
          var c := Configure(m, pm[m.provider.value], s);
          assert (all + [c])[..|all|] == all;
          all := all + [c];
          if c.modelId !in cacheKeys {
            cacheKeys := cacheKeys + [c.modelId];
          }
          modelsCache := modelsCache[c.modelId := c];
        }
        i := i + 1;
      }
      assert rows[..|rows|] == rows;
    }

    /** The loop `self.providers_cache[provider['id']] = provider`. */
    method CacheProviders(ps: seq<ProviderRow>)
      modifies this
      ensures State() == old(State()).(providers := old(providersCache) + ProviderMap(ps))
    {
      var i := 0;
      while i < |ps|
        invariant 0 <= i <= |ps|
        invariant State() == old(State()).(providers := old(providersCache) + ProviderMap(ps[..i]))
      {
        assert ps[..i + 1][..i] == ps[..i];
        assert old(providersCache) + ProviderMap(ps[..i + 1])
            == (old(providersCache) + ProviderMap(ps[..i]))[ps[i].id := ps[i]];
        providersCache := providersCache[ps[i].id := ps[i]];
        i := i + 1;
      }
      assert ps[..|ps|] == ps;
    }

    /** `get_available_models(force_refresh)`. */
    method GetAvailableModels(force: bool, now: int, s: Settings, b: Backend) returns (models: seq<ModelConfig>)
      requires Valid()
      modifies this
      ensures Valid()
      ensures Fetched(models, State()) == Refresh(old(State()), force, now, s, b)
    {
      RefreshWellFormed(State(), force, now, s, b);
      if !force && cacheExpiry > 0 && now < cacheExpiry {
        models := CachedModels();
        return;
      }
      var ok := AuthenticateJwt(now, b.auth);
      if (!ok && s.apiToken == "") || b.providers.None? {
        return [DefaultModel(s)];
      }
      var pm := ProviderMap(b.providers.value);
      models := [];
      if b.models.Some? {
        models := AddModels(b.models.value, pm, s);
      }
      CacheProviders(b.providers.value);
      cacheExpiry := now + CacheDuration;
    }

    /** `select_model(model_id)`. */
    method SelectModel(id: string, now: int, s: Settings, b: Backend) returns (r: Option<ModelConfig>)
      requires Valid()
      modifies this
      ensures Valid()
      ensures Chosen(r, State()) == Select(old(State()), id, now, s, b)
    {
      if id in modelsCache {
        currentModel := Some(modelsCache[id]);
        return currentModel;
      }
      var models := GetAvailableModels(true, now, s, b);
      var i := 0;
      while i < |models|
        invariant 0 <= i <= |models|
        invariant forall j :: 0 <= j < i ==> !Matches(WithId(id), models[j])
      {
        if models[i].modelId == id {
          currentModel := Some(models[i]);
          return currentModel;
        }
        i := i + 1;
      }
      return None;
    }

    /** `get_current_model()`. */
    method GetCurrentModel(now: int, s: Settings, b: Backend) returns (r: Option<ModelConfig>)
      requires Valid()
      modifies this
      ensures Valid()
      ensures Chosen(r, State()) == Current(old(State()), now, s, b)
    {
      if currentModel.None? {
        var models := GetAvailableModels(false, now, s, b);
        if models != [] {
          var preferred: Option<ModelConfig> := None;
          var i := 0;
          while i < |models|
            invariant 0 <= i <= |models|
            invariant forall j :: 0 <= j < i ==> !Matches(MentionsPreferred, models[j])
          {
            if Contains(models[i].modelId, PreferredName) || Contains(models[i].modelName, PreferredName) {
              preferred := Some(models[i]);
              break;
            }
            i := i + 1;
          }
          assert preferred.Some? ==> i < |models| && preferred == Some(models[i]) && Matches(MentionsPreferred, models[i]);
          currentModel := if preferred.Some? then preferred else Some(models[0]);
        }
      }
      return currentModel;
    }

    /** `get_model_by_name(model_name)`. */
    method GetModelByName(name: string, now: int, s: Settings, b: Backend) returns (r: Option<ModelConfig>)
      requires Valid()
      modifies this
      ensures Valid()
      ensures Chosen(r, State()) == ByName(old(State()), name, now, s, b)
    {
      ghost var st := State();
      var models := GetAvailableModels(false, now, s, b);
      assert Refresh(st, false, now, s, b) == Fetched(models, State());
      var i := 0;
      while i < |models|
        invariant 0 <= i <= |models|
        invariant forall j :: 0 <= j < i ==> !Matches(Named(name), models[j])
      {
        if models[i].modelName == name || models[i].modelId == name {
          assert FirstMatch(models, Named(name)) == Some(i);
          return Some(models[i]);
        }
        i := i + 1;
      }
      assert FirstMatch(models, Named(name)) == None;
      return None;
    }

    /** `list_models_summary()`. */
    method ListModelsSummary(now: int, s: Settings, b: Backend) returns (summary: seq<ModelSummary>)
      requires Valid()
      modifies this
      ensures Valid()
      ensures var f := Refresh(old(State()), false, now, s, b);
        State() == f.after && |summary| == |f.models|
        && forall i :: 0 <= i < |summary| ==> summary[i] == Summarize(f.models[i], currentModel)
    {
      var models := GetAvailableModels(false, now, s, b);
      summary := [];
      var i := 0;
      while i < |models|
        invariant 0 <= i <= |models|
        invariant |summary| == i
        invariant forall j :: 0 <= j < i ==> summary[j] == Summarize(models[j], currentModel)
      {
        summary := summary + [Summarize(models[i], currentModel)];
        i := i + 1;
      }
    }
  }
}
