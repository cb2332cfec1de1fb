/**
 * The data migration that seeds default AI configuration
 * (backend/chat/migrations/0003_create_default_ai_config.py), forwards and in
 * reverse.
 */
module Migration0003 {
  import opened Wrappers
  import opened ChatModels
  import opened ChatServices
  import opened InitAiConfig

  /**
   * The forward step runs the same per-user seeding as the `init_ai_config`
   * command over all users, the environment read the same way.
   */
  method Forward(db: ChatDb, apiKey: Option<string>, baseUrl: Option<string>, modelName: Option<string>,
                 users: seq<nat>, now: int)
    requires db.Valid()
    requires forall i, j :: 0 <= i < j < |users| ==> users[i] != users[j]
    modifies db
    ensures db.Valid()
    ensures db.conversations == old(db.conversations) && db.messages == old(db.messages)
    ensures apiKey.None? || apiKey.value == "" ==>
      (db.providers == old(db.providers) && db.models == old(db.models)
       && db.settings == old(db.settings) && db.nextId == old(db.nextId))
    ensures apiKey.Some? && apiKey.value != "" ==>
      Seeded(db.providers, db.models, db.settings, db.nextId, Providerless(users, old(db.providers)), users,
             old(db.providers), old(db.models), old(db.settings), old(db.nextId),
             CommandService(apiKey, baseUrl, modelName), now)
  {
    var svc := CommandService(apiKey, baseUrl, modelName);
    var _ := Handle(db, svc, users, now);
  }

  /** The ids of the providers the forward step may have created, by their name. */
  function SeededIds(ps: seq<Provider>): (r: seq<nat>)
    ensures forall id :: id in r <==> exists p :: p in ps && p.id == id && p.name == DefaultProviderName
  {
    if ps == [] then []
    else
      assert forall p :: p in ps ==> p == ps[0] || p in ps[1..];
      (if ps[0].name == DefaultProviderName then [ps[0].id] else []) + SeededIds(ps[1..])
  }

  /** A settings row with its references to the deleted providers, and to their models, set to null. */
  function ClearSeeded(st: ChatSettings, ids: seq<nat>, ms: seq<AiModel>): (r: ChatSettings)
    ensures r == st.(defaultProvider := r.defaultProvider, defaultModel := r.defaultModel)
    ensures r.defaultProvider.Some? ==> r.defaultProvider == st.defaultProvider && r.defaultProvider.value !in ids
    ensures st.defaultProvider.Some? && st.defaultProvider.value !in ids ==> r.defaultProvider == st.defaultProvider
    ensures r.defaultModel.Some? ==>
      (r.defaultModel == st.defaultModel && forall m :: m in ms && m.id == r.defaultModel.value ==> m.provider !in ids)
    ensures st.defaultModel.Some? && (forall m :: m in ms && m.id == st.defaultModel.value ==> m.provider !in ids)
      ==> r.defaultModel == st.defaultModel
  {
    st.(defaultProvider := if st.defaultProvider.Some? && st.defaultProvider.value in ids then None else st.defaultProvider,
        defaultModel := if st.defaultModel.Some? && exists m :: m in ms && m.id == st.defaultModel.value && m.provider in ids
                        then None else st.defaultModel)
  }

  /** Deleting one more provider after some others nulls what deleting them all at once nulls. */
  lemma ClearSeededStep(st: ChatSettings, ids: seq<nat>, id: nat, ms: seq<AiModel>, rest: seq<AiModel>)
    requires forall m :: m in rest <==> m in ms && m.provider !in ids
    ensures NullDeleted(ClearSeeded(st, ids, ms), id, rest) == ClearSeeded(st, ids + [id], ms)
  {
    var a := NullDeleted(ClearSeeded(st, ids, ms), id, rest);
    var b := ClearSeeded(st, ids + [id], ms);
    if st.defaultModel.Some? {
      var v := st.defaultModel.value;
      if exists m :: m in ms && m.id == v && m.provider in ids + [id] {
        var m :| m in ms && m.id == v && m.provider in ids + [id];
        if m.provider !in ids {
          assert m in rest;
        }
      }
    }
    assert a.defaultModel == b.defaultModel;
  }

  /** Every settings row is the old one with the references to `ids` nulled. */
  ghost predicate AllCleared(ss: seq<ChatSettings>, ss0: seq<ChatSettings>, ids: seq<nat>, ms: seq<AiModel>)
  {
    |ss| == |ss0| && forall k :: 0 <= k < |ss0| ==> ss[k] == ClearSeeded(ss0[k], ids, ms)
  }

  lemma AllClearedStep(ss0: seq<ChatSettings>, ss1: seq<ChatSettings>, ids: seq<nat>, id: nat,
                       ms0: seq<AiModel>, ms1: seq<AiModel>)
    requires AllCleared(ss1, ss0, ids, ms0)
    requires forall m :: m in ms1 <==> m in ms0 && m.provider !in ids
    ensures AllCleared(NullAll(ss1, id, ms1), ss0, ids + [id], ms0)
  {
    forall k | 0 <= k < |ss0| ensures NullAll(ss1, id, ms1)[k] == ClearSeeded(ss0[k], ids + [id], ms0) {
      ClearSeededStep(ss0[k], ids, id, ms0, ms1);
    }
  }

  /**
   * The reverse step: every provider named `默认SiliconFlow`, of any user, is
   * deleted, and with it its models; settings that pointed at them are nulled.
   */
  method Reverse(db: ChatDb)
    requires db.Valid()
    modifies db
    ensures db.Valid()
    ensures forall q :: q in db.providers <==> q in old(db.providers) && q.name != DefaultProviderName
    ensures forall m :: m in db.models <==> m in old(db.models) && m.provider !in SeededIds(old(db.providers))
    ensures AllCleared(db.settings, old(db.settings), SeededIds(old(db.providers)), old(db.models))
    ensures db.conversations == old(db.conversations) && db.messages == old(db.messages) && db.nextId == old(db.nextId)
  {
    var ids := SeededIds(db.providers);
    ghost var ss0, ms0 := db.settings, db.models;
    var i := 0;
    while i < |ids|
      invariant 0 <= i <= |ids| && db.Valid()
      invariant forall q :: q in db.providers <==> q in old(db.providers) && q.id !in ids[..i]
      invariant forall m :: m in db.models <==> m in old(db.models) && m.provider !in ids[..i]
      invariant AllCleared(db.settings, ss0, ids[..i], ms0)
      invariant db.conversations == old(db.conversations) && db.messages == old(db.messages) && db.nextId == old(db.nextId)
    {
      assert ids[..i + 1] == ids[..i] + [ids[i]];
      ghost var ss1, ms1 := db.settings, db.models;
      db.DeleteProvider(ids[i]);
      AllClearedStep(ss0, ss1, ids[..i], ids[i], ms0, ms1);
      i := i + 1;
    }
    assert ids[..i] == ids;
    forall q | q in old(db.providers) ensures q.id in ids <==> q.name == DefaultProviderName {
      if q.id in ids {
        var p :| p in old(db.providers) && p.id == q.id && p.name == DefaultProviderName;
      }
    }
  }
}
