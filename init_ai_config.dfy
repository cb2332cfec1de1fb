/**
 * The `init_ai_config` management command
 * (backend/chat/management/commands/init_ai_config.py): seed a default
 * SiliconFlow provider, its model and the chat settings for every user who
 * has no AI provider yet.
 */
module InitAiConfig {
  import opened Wrappers
  import opened ChatModels
  import opened ChatServices

  const DefaultBaseUrl: string := "https://api.siliconflow.cn/v1"
  const DefaultModelName: string := "Qwen/Qwen2.5-7B-Instruct"

  /** The three environment variables, each replaced by its default when unset. */
  function CommandService(apiKey: Option<string>, baseUrl: Option<string>, modelName: Option<string>): (r: Service)
    ensures r.apiKey == (if apiKey.Some? then apiKey.value else "")
    ensures r.baseUrl == (if baseUrl.Some? then baseUrl.value else DefaultBaseUrl)
    ensures r.modelName == (if modelName.Some? then modelName.value else DefaultModelName)
  {
    Service(if apiKey.Some? then apiKey.value else "",
            if baseUrl.Some? then baseUrl.value else DefaultBaseUrl,
            if modelName.Some? then modelName.value else DefaultModelName)
  }

  /** The settings row `get_or_create` yields: the existing one, or a new one with the defaults. */
  function BaseSettings(existing: Option<ChatSettings>, user: nat): (r: ChatSettings)
    ensures r.user == user || existing.Some?
    ensures existing.None? ==> r.maxTokens == SettingsDefaultMaxTokens && r.systemPrompt == DefaultSystemPrompt
  {
    if existing.Some? then existing.value else ChatSettings(user, None, None, SettingsDefaultMaxTokens, DefaultSystemPrompt)
  }

  /**
   * `u` is set up by the command: its settings row names a default provider and
   * a model made from the environment, and that provider is its only one.
   */
  predicate Configured(ps: seq<Provider>, ms: seq<AiModel>, ss: seq<ChatSettings>, u: nat, svc: Service, now: int)
  {
    var s := FindSettings(ss, u);
    && s.Some? && s.value.defaultProvider.Some? && s.value.defaultModel.Some?
    && DefaultProvider(svc, u, s.value.defaultProvider.value, now) in ps
    && DefaultModel(svc, s.value.defaultModel.value, s.value.defaultProvider.value) in ms
    && forall q :: q in ps && q.user == u ==> q.id == s.value.defaultProvider.value
  }

  /** The number of users in `users` without a provider in `ps`. */
  function Providerless(users: seq<nat>, ps: seq<Provider>): (n: nat)
  {
    if users == [] then 0
    else Providerless(users[..|users| - 1], ps) + (if HasProviders(ps, users[|users| - 1]) then 0 else 1)
  }

  /** Exactly the users without providers are counted. */
  lemma {:induction false} ProviderlessBounds(users: seq<nat>, ps: seq<Provider>)
    ensures Providerless(users, ps) <= |users|
    ensures Providerless(users, ps) == 0 <==> forall u :: u in users ==> HasProviders(ps, u)
    decreases |users|
  {
    if users != [] {
      var init := users[..|users| - 1];
      ProviderlessBounds(init, ps);
      assert users == init + [users[|users| - 1]];
      assert forall u :: u in users ==> u in init || u == users[|users| - 1];
    }
  }

  lemma ProviderlessSnoc(users: seq<nat>, i: nat, ps: seq<Provider>)
    requires i < |users|
    ensures Providerless(users[..i + 1], ps) == Providerless(users[..i], ps) + (if HasProviders(ps, users[i]) then 0 else 1)
  {
    assert users[..i + 1][..i] == users[..i];
  }

  lemma ProviderlessWhole(users: seq<nat>, ps: seq<Provider>)
    ensures Providerless(users[..|users|], ps) == Providerless(users, ps)
  {
    assert users[..|users|] == users;
  }

  /**
   * One turn of the loop: a user without providers gets the default provider,
   * its model, and a settings row (the existing one, or a new one with the
   * defaults) pointing at both; a user with providers is skipped.
   */
  method ConfigureUser(db: ChatDb, svc: Service, user: nat, now: int) returns (created: bool)
    requires db.Valid()
    modifies db
    ensures db.Valid()
    ensures created <==> !HasProviders(old(db.providers), user)
    ensures db.conversations == old(db.conversations) && db.messages == old(db.messages)
    ensures !created ==>
      (db.providers == old(db.providers) && db.models == old(db.models)
       && db.settings == old(db.settings) && db.nextId == old(db.nextId))
    ensures created ==>
      (var p := DefaultProvider(svc, user, old(db.nextId), now);
       var m := DefaultModel(svc, old(db.nextId) + 1, p.id);
       && db.providers == Upsert(old(db.providers), p)
       && db.models == old(db.models) + [m]
       && db.nextId == old(db.nextId) + 2
       && FindSettings(db.settings, user)
          == Some(BaseSettings(FindSettings(old(db.settings), user), user).(defaultProvider := Some(p.id), defaultModel := Some(m.id))))
    ensures forall v :: v != user ==> FindSettings(db.settings, v) == FindSettings(old(db.settings), v)
  {
    if HasProviders(db.providers, user) {
      return false;
    }
    var base := BaseSettings(db.SettingsOf(user), user);
    var p := DefaultProvider(svc, user, db.nextId, now);
    SaveFirstProvider(db.providers, p);
    var saved := db.SaveProvider(p);
    var added, m := db.AddModel(DefaultModel(svc, 0, p.id));
    var s := base.(defaultProvider := Some(p.id), defaultModel := Some(m.id));
    assert p in db.providers && m in db.models;
    db.PutSettings(s);
    created := true;
  }

  /**
   * `Command.handle`: without a SiliconFlow key nothing is created; otherwise
   * every listed user without providers is configured, the others are left
   * alone, and the count is the number of users configured.
   */
  method Handle(db: ChatDb, svc: Service, users: seq<nat>, now: int) returns (count: nat)
    requires db.Valid()
    requires forall i, j :: 0 <= i < j < |users| ==> users[i] != users[j]
    modifies db
    ensures db.Valid()
    ensures db.conversations == old(db.conversations) && db.messages == old(db.messages)
    ensures svc.apiKey == "" ==>
      (count == 0 && db.providers == old(db.providers) && db.models == old(db.models)
       && db.settings == old(db.settings) && db.nextId == old(db.nextId))
    ensures svc.apiKey != "" ==>
      Seeded(db.providers, db.models, db.settings, db.nextId, count, users,
             old(db.providers), old(db.models), old(db.settings), old(db.nextId), svc, now)
  {
    if svc.apiKey == "" {
      return 0;
    }
    count := HandleAll(db, svc, users, now);
  }

  /**
   * What a run of the command over `users` leaves, given the tables it started
   * from: every listed user has a provider, exactly the provider-less ones were
   * configured and counted, and nothing else was changed or removed.
   */
  ghost predicate Seeded(ps: seq<Provider>, ms: seq<AiModel>, ss: seq<ChatSettings>, n: nat, count: nat, users: seq<nat>,
                         ps0: seq<Provider>, ms0: seq<AiModel>, ss0: seq<ChatSettings>, n0: nat, svc: Service, now: int)
  {
    && ((forall u :: u in users ==> HasProviders(ps0, u)) ==> count == 0 && ps == ps0 && ms == ms0 && ss == ss0 && n == n0)
    && count == Providerless(users, ps0)
    && (forall u :: u in users ==> HasProviders(ps, u))
    && (forall u :: u in users && !HasProviders(ps0, u) ==> Configured(ps, ms, ss, u, svc, now))
    && (forall v :: (v !in users || HasProviders(ps0, v)) ==> FindSettings(ss, v) == FindSettings(ss0, v))
    && (forall q :: q in ps0 ==> q in ps)
    && (forall q :: q in ps && q !in ps0 ==> q.user in users && !HasProviders(ps0, q.user))
    && (forall m :: m in ms0 ==> m in ms)
  }

  /** Running the command again over the same users creates nothing and changes nothing. */
  lemma SeededTwice(ps0: seq<Provider>, ms0: seq<AiModel>, ss0: seq<ChatSettings>, n0: nat,
                    ps1: seq<Provider>, ms1: seq<AiModel>, ss1: seq<ChatSettings>, n1: nat, count1: nat,
                    ps2: seq<Provider>, ms2: seq<AiModel>, ss2: seq<ChatSettings>, n2: nat, count2: nat,
                    users: seq<nat>, svc: Service, now: int, later: int)
    requires Seeded(ps1, ms1, ss1, n1, count1, users, ps0, ms0, ss0, n0, svc, now)
    requires Seeded(ps2, ms2, ss2, n2, count2, users, ps1, ms1, ss1, n1, svc, later)
    ensures count2 == 0 && ps2 == ps1 && ms2 == ms1 && ss2 == ss1 && n2 == n1
  {
  }

  /** `Command.handle` once a key is configured: the loop over the users. */
  method HandleAll(db: ChatDb, svc: Service, users: seq<nat>, now: int) returns (count: nat)
    requires db.Valid() && svc.apiKey != ""
    requires forall i, j :: 0 <= i < j < |users| ==> users[i] != users[j]
    modifies db
    ensures db.Valid()
    ensures db.conversations == old(db.conversations) && db.messages == old(db.messages)
    ensures Seeded(db.providers, db.models, db.settings, db.nextId, count, users,
                   old(db.providers), old(db.models), old(db.settings), old(db.nextId), svc, now)
  {
    ghost var ps0, ms0, ss0, n0 := db.providers, db.models, db.settings, db.nextId;
    ghost var done: set<nat> := {};
    count := 0;
    var i := 0;
    while i < |users|
      invariant 0 <= i <= |users| && db.Valid()
      invariant db.conversations == old(db.conversations) && db.messages == old(db.messages)
      invariant (forall j :: 0 <= j < i ==> users[j] in done) && forall v :: v in done ==> v in users
      invariant count == Providerless(users[..i], ps0)
      invariant Progress(db.providers, db.models, db.settings, done, users, i, ps0, ms0, ss0, svc, now)
      invariant (forall u :: u in users ==> HasProviders(ps0, u)) ==>
        db.providers == ps0 && db.models == ms0 && db.settings == ss0 && db.nextId == n0
    {
      var u := users[i];
      var created := HandleUser(db, svc, u, now, done, users, i, ps0, ms0, ss0);
      if created {
        count := count + 1;
      }
      ProviderlessSnoc(users, i, ps0);
      done := done + {u};
      i := i + 1;
    }
    ProviderlessWhole(users, ps0);
    Finished(db.providers, db.models, db.settings, db.nextId, count, done, users, ps0, ms0, ss0, n0, svc, now);
  }

  /** The body of the loop of `Handle`: configure the next user, keeping `Progress`. */
  method HandleUser(db: ChatDb, svc: Service, u: nat, now: int, ghost done: set<nat>, ghost users: seq<nat>, ghost i: nat,
                    ghost ps0: seq<Provider>, ghost ms0: seq<AiModel>, ghost ss0: seq<ChatSettings>)
    returns (created: bool)
    requires db.Valid() && Progress(db.providers, db.models, db.settings, done, users, i, ps0, ms0, ss0, svc, now)
    requires i < |users| && u == users[i] && forall j :: i < j < |users| ==> users[j] != u
    modifies db
    ensures db.Valid()
    ensures db.conversations == old(db.conversations) && db.messages == old(db.messages)
    ensures created <==> !HasProviders(ps0, u)
    ensures Progress(db.providers, db.models, db.settings, done + {u}, users, i + 1, ps0, ms0, ss0, svc, now)
    ensures !created ==>
      (db.providers == old(db.providers) && db.models == old(db.models)
       && db.settings == old(db.settings) && db.nextId == old(db.nextId))
  {
    ghost var ps, ms, ss, n := db.providers, db.models, db.settings, db.nextId;
    created := ConfigureUser(db, svc, u, now);
    ProgressStep(ps, ms, ss, n, db.providers, db.models, db.settings, u, created, done, users, i, ps0, ms0, ss0, svc, now);
  }

  /**
   * What the loop of `Handle` keeps, with `done` the users handled so far and
   * `users[i..]` those still to come, and `ps0`, `ms0`, `ss0` the tables it started from.
   */
  ghost predicate Progress(ps: seq<Provider>, ms: seq<AiModel>, ss: seq<ChatSettings>, done: set<nat>, users: seq<nat>, i: nat,
                           ps0: seq<Provider>, ms0: seq<AiModel>, ss0: seq<ChatSettings>, svc: Service, now: int)
  {
    && (forall j :: i <= j < |users| ==> users[j] !in done && (HasProviders(ps, users[j]) <==> HasProviders(ps0, users[j])))
    && (forall u :: u in done ==> HasProviders(ps, u))
    && (forall u :: u in done && !HasProviders(ps0, u) ==> Configured(ps, ms, ss, u, svc, now))
    && (forall v :: (v !in done || HasProviders(ps0, v)) ==> FindSettings(ss, v) == FindSettings(ss0, v))
    && (forall q :: q in ps0 ==> q in ps)
    && (forall q :: q in ps && q !in ps0 ==> q.user in done && !HasProviders(ps0, q.user))
    && (forall m :: m in ms0 ==> m in ms)
  }

  /** Once every user is handled, `Progress` is what `Handle` promises. */
  lemma Finished(ps: seq<Provider>, ms: seq<AiModel>, ss: seq<ChatSettings>, n: nat, count: nat, done: set<nat>, users: seq<nat>,
                 ps0: seq<Provider>, ms0: seq<AiModel>, ss0: seq<ChatSettings>, n0: nat, svc: Service, now: int)
    requires Progress(ps, ms, ss, done, users, |users|, ps0, ms0, ss0, svc, now)
    requires (forall j :: 0 <= j < |users| ==> users[j] in done) && forall v :: v in done ==> v in users
    requires count == Providerless(users, ps0)
    requires (forall u :: u in users ==> HasProviders(ps0, u)) ==> ps == ps0 && ms == ms0 && ss == ss0 && n == n0
    ensures Seeded(ps, ms, ss, n, count, users, ps0, ms0, ss0, n0, svc, now)
  {
    ProviderlessBounds(users, ps0);
  }

  /** Handling the next user keeps `Progress`. */
  lemma ProgressStep(ps: seq<Provider>, ms: seq<AiModel>, ss: seq<ChatSettings>, n: nat,
                     ps': seq<Provider>, ms': seq<AiModel>, ss': seq<ChatSettings>,
                     u: nat, created: bool, done: set<nat>, users: seq<nat>, i: nat,
                     ps0: seq<Provider>, ms0: seq<AiModel>, ss0: seq<ChatSettings>, svc: Service, now: int)
    requires Progress(ps, ms, ss, done, users, i, ps0, ms0, ss0, svc, now)
    requires i < |users| && u == users[i] && forall j :: i < j < |users| ==> users[j] != u
    requires forall q :: q in ps ==> q.id < n
    requires SettingsUnique(ss')
    requires created <==> !HasProviders(ps, u)
    requires !created ==> ps' == ps && ms' == ms && ss' == ss
    requires created ==>
      (var p := DefaultProvider(svc, u, n, now);
       var m := DefaultModel(svc, n + 1, p.id);
       && ps' == Upsert(ps, p)
       && ms' == ms + [m]
       && FindSettings(ss', u) == Some(BaseSettings(FindSettings(ss, u), u).(defaultProvider := Some(p.id), defaultModel := Some(m.id))))
    requires forall v :: v != u ==> FindSettings(ss', v) == FindSettings(ss, v)
    ensures created <==> !HasProviders(ps0, u)
    ensures Progress(ps', ms', ss', done + {u}, users, i + 1, ps0, ms0, ss0, svc, now)
  {
    StepKeeps(ps, ms, ss, n, ps', ms', ss', u, created, svc, now);
  }

  /** One turn of the loop keeps the other users' standing and configures the user it creates for. */
  lemma StepKeeps(ps: seq<Provider>, ms: seq<AiModel>, ss: seq<ChatSettings>, n: nat,
                  ps': seq<Provider>, ms': seq<AiModel>, ss': seq<ChatSettings>,
                  u: nat, created: bool, svc: Service, now: int)
    requires forall q :: q in ps ==> q.id < n
    requires SettingsUnique(ss')
    requires created <==> !HasProviders(ps, u)
    requires !created ==> ps' == ps && ms' == ms && ss' == ss
    requires created ==>
      (var p := DefaultProvider(svc, u, n, now);
       var m := DefaultModel(svc, n + 1, p.id);
       && ps' == Upsert(ps, p)
       && ms' == ms + [m]
       && FindSettings(ss', u) == Some(BaseSettings(FindSettings(ss, u), u).(defaultProvider := Some(p.id), defaultModel := Some(m.id))))
    requires forall v :: v != u ==> FindSettings(ss', v) == FindSettings(ss, v)
    ensures forall w :: w != u ==> (HasProviders(ps', w) <==> HasProviders(ps, w))
    ensures HasProviders(ps', u)
    ensures forall w :: w != u && Configured(ps, ms, ss, w, svc, now) ==> Configured(ps', ms', ss', w, svc, now)
    ensures created ==> Configured(ps', ms', ss', u, svc, now)
    ensures forall q :: q in ps ==> q in ps'
    ensures forall q :: q in ps' && q !in ps ==> q.user == u && created
    ensures forall m :: m in ms ==> m in ms'
  {
    if created {
      var p := DefaultProvider(svc, u, n, now);
      assert forall q :: q in ps ==> q.id != p.id;
      forall w | w != u && Configured(ps, ms, ss, w, svc, now) ensures Configured(ps', ms', ss', w, svc, now) {
        var s := FindSettings(ss, w).value;
        assert DefaultProvider(svc, w, s.defaultProvider.value, now) in ps;
      }
    }
  }
}
