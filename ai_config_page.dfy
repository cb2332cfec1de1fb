/**
 * The AI configuration page (frontend/src/components/AIConfig.tsx): the
 * provider and model forms, what their submissions send, the guard on
 * creating a model, the automatic adding of detected models, the provider
 * filter of the model list and the provider type labels. The service calls
 * are recorded as the requests sent; whether each succeeds is a parameter.
 */
module AiConfigPage {
  import opened Wrappers
  import Text

  /** A provider as the page lists it. */
  datatype AiProvider = AiProvider(
    id: int, name: string, providerType: string, apiBaseUrl: string, description: string, isActive: bool, isDefault: bool)

  /**
   * The provider form's values; a text the user never filled is the empty
   * string, and `apiKey` None is a field absent from the object.
   */
  datatype ProviderForm = ProviderForm(
    name: string, providerType: string, apiKey: Option<string>, apiBaseUrl: string, description: string, isActive: bool, isDefault: bool)

  /** The model form's values. */
  datatype ModelForm = ModelForm(
    provider: int, modelId: string, modelName: string, description: string, maxTokens: int,
    supportFunctions: bool, supportVision: bool, isActive: bool)

  /** A request the page sends through the configuration service. */
  datatype Call = CreateProvider(form: ProviderForm) | UpdateProvider(id: int, payload: ProviderForm) | CreateModel(model: ModelForm)

  /** A JavaScript text used as a condition. */
  predicate Truthy(t: Option<string>)
  {
    t.Some? && t.value != ""
  }

  /** A provider id used as a condition: set and not 0. */
  predicate Selected(id: Option<int>)
  {
    id.Some? && id.value != 0
  }

  // ---------------------------------------------------------------------------
  // Provider form
  // ---------------------------------------------------------------------------

  /** The form `handleCreateProvider` opens: reset, then active, not default, of type `custom`. */
  const NewProviderForm: ProviderForm := ProviderForm("", "custom", None, "", "", true, false)

  /** The form `handleEditProvider` opens: the provider's values with the key blanked. */
  function EditForm(p: AiProvider): (f: ProviderForm)
    ensures f.apiKey == Some("")
    ensures f.name == p.name && f.providerType == p.providerType && f.apiBaseUrl == p.apiBaseUrl
    ensures f.description == p.description && f.isActive == p.isActive && f.isDefault == p.isDefault
  {
    ProviderForm(p.name, p.providerType, Some(""), p.apiBaseUrl, p.description, p.isActive, p.isDefault)
  }

  /** What an edit submission sends: everything, without `api_key` when it is empty. */
  function UpdatePayload(values: ProviderForm): (d: ProviderForm)
    ensures d.apiKey.Some? <==> Truthy(values.apiKey)
    ensures d.apiKey.Some? ==> d.apiKey == values.apiKey
    ensures d.(apiKey := values.apiKey) == values
  {
    if !Truthy(values.apiKey) then values.(apiKey := None) else values
  }

  /** The request a provider submission sends: an update of the edited provider, or a creation with every value. */
  function ProviderRequest(current: Option<AiProvider>, values: ProviderForm): (c: Call)
    ensures current.None? ==> c == CreateProvider(values)
    ensures current.Some? ==> c.UpdateProvider? && c.id == current.value.id
  {
    if current.Some? then UpdateProvider(current.value.id, UpdatePayload(values)) else CreateProvider(values)
  }

  /**
   * Opening a provider for editing and saving without typing a key sends no
   * key, so the stored key is kept; typing one sends it.
   */
  lemma EditKeepsKey(p: AiProvider, key: string)
    ensures var c := ProviderRequest(Some(p), EditForm(p));
      c.UpdateProvider? && c.payload.apiKey.None? && c.payload.name == p.name && c.payload.apiBaseUrl == p.apiBaseUrl
    ensures key != "" ==> ProviderRequest(Some(p), EditForm(p).(apiKey := Some(key))).payload.apiKey == Some(key)
  {
  }

  // ---------------------------------------------------------------------------
  // Models
  // ---------------------------------------------------------------------------

  /** The form `handleCreateModel` opens for the selected provider. */
  function NewModelForm(provider: int): (f: ModelForm)
    ensures f.provider == provider && f.maxTokens == 4096 && !f.supportFunctions && !f.supportVision && f.isActive
  {
    ModelForm(provider, "", "", "", 4096, false, false, true)
  }

  /** A model `detect_models` reported. */
  datatype DetectedModel = DetectedModel(modelId: string, modelName: string, description: string)

  /** The creation request for a detected model. */
  function AutoModel(provider: int, m: DetectedModel): (f: ModelForm)
    ensures f == NewModelForm(provider).(modelId := m.modelId, modelName := m.modelName, description := m.description)
  {
    ModelForm(provider, m.modelId, m.modelName, m.description, 4096, false, false, true)
  }

  /** How many of the outcomes are successes. */
  function Successes(outcomes: seq<bool>): (n: nat)
    ensures n <= |outcomes|
    ensures n == |outcomes| <==> forall i :: 0 <= i < |outcomes| ==> outcomes[i]
    ensures n == 0 <==> forall i :: 0 <= i < |outcomes| ==> !outcomes[i]
  {
    if outcomes == [] then 0 else Successes(outcomes[..|outcomes| - 1]) + (if outcomes[|outcomes| - 1] then 1 else 0)
  }

  /**
   * The confirmation of `handleDetectModels`: one creation request per
   * detected model, in order, each with the form's defaults; `outcomes[i]`
   * says whether the i-th did not throw. A failure (a model already there) is
   * skipped, and the count is of those that did not throw.
   */
  method AddDetected(provider: int, detected: seq<DetectedModel>, outcomes: seq<bool>)
    returns (sent: seq<Call>, successCount: nat)
    requires |outcomes| == |detected|
    ensures |sent| == |detected|
    ensures forall i :: 0 <= i < |detected| ==> sent[i] == CreateModel(AutoModel(provider, detected[i]))
    ensures successCount == Successes(outcomes) && successCount <= |detected|
  {
    sent, successCount := [], 0;
    var i := 0;
    while i < |detected|
      invariant 0 <= i <= |detected|
      invariant |sent| == i
      invariant forall j :: 0 <= j < i ==> sent[j] == CreateModel(AutoModel(provider, detected[j]))
      invariant successCount == Successes(outcomes[..i])
    {
      sent := sent + [CreateModel(AutoModel(provider, detected[i]))];
      if outcomes[i] {
        successCount := successCount + 1;
      }
      assert outcomes[..i + 1][..i] == outcomes[..i];
      i := i + 1;
    }
    assert outcomes[..i] == outcomes;
  }

  /** A model as the page lists it. */
  datatype AiModel = AiModel(id: int, provider: int, modelId: string, modelName: string)

  /** `filteredModels`: the selected provider's models in list order, or every model when none is selected. */
  function FilteredModels(models: seq<AiModel>, selected: Option<int>): (r: seq<AiModel>)
    ensures !Selected(selected) ==> r == models
    ensures forall m :: m in r <==> m in models && (Selected(selected) ==> m.provider == selected.value)
    ensures |r| <= |models|
  {
    if Selected(selected) then Filter(models, (m: AiModel) => m.provider == selected.value) else models
  }

  // ---------------------------------------------------------------------------
  // Labels
  // ---------------------------------------------------------------------------

  const TypeLabels: map<string, string> := map[
    "openai" := "OpenAI", "siliconflow" := "SiliconFlow", "freegpt" := "FreeGPT", "qwen" := "通义千问",
    "gemini" := "Gemini", "claude" := "Claude", "custom" := "自定义"]

  /** `getProviderTypeLabel`: the known type's label, else the type itself. */
  function TypeLabel(t: string): string
  {
    if t in TypeLabels && TypeLabels[t] != "" then TypeLabels[t] else t
  }

  /**
   * Known types get their own labels, no two alike, and an unknown type is
   * shown as it is.
   */
  lemma TypeLabelsDistinct(a: string, b: string)
    ensures a !in TypeLabels ==> TypeLabel(a) == a
    ensures a in TypeLabels && b in TypeLabels && a != b ==> TypeLabel(a) != TypeLabel(b)
    ensures a in TypeLabels ==> TypeLabel(a) == TypeLabels[a]
  {
  }

  // ---------------------------------------------------------------------------
  // The page
  // ---------------------------------------------------------------------------

  datatype Toast = Success(text: string) | Warning(text: string) | Error(text: string)

  const ChooseProvider: string := "请先选择一个AI提供商"

  class AiConfigView {
    var selectedProviderId: Option<int>
    var currentProvider: Option<AiProvider>
    var providerForm: ProviderForm
    var modalVisible: bool
    var currentModel: Option<AiModel>
    var modelForm: ModelForm
    var modelModalVisible: bool
    var toasts: seq<Toast>
    /** The requests sent so far. */
    var sent: seq<Call>

    constructor ()
      ensures selectedProviderId.None? && !modalVisible && !modelModalVisible && toasts == [] && sent == []
    {
      selectedProviderId, currentProvider, providerForm, modalVisible := None, None, NewProviderForm, false;
      currentModel, modelForm, modelModalVisible := None, NewModelForm(0), false;
      toasts, sent := [], [];
    }

    /** `handleCreateProvider`. */
    method CreateProviderForm()
      modifies this
      ensures currentProvider.None? && providerForm == NewProviderForm && modalVisible
      ensures toasts == old(toasts) && sent == old(sent) && selectedProviderId == old(selectedProviderId)
    {
      currentProvider := None;
      providerForm := NewProviderForm;
      modalVisible := true;
    }

    /** `handleEditProvider`. */
    method EditProvider(p: AiProvider)
      modifies this
      ensures currentProvider == Some(p) && providerForm == EditForm(p) && modalVisible
      ensures toasts == old(toasts) && sent == old(sent) && selectedProviderId == old(selectedProviderId)
    {
      currentProvider := Some(p);
      providerForm := EditForm(p);
      modalVisible := true;
    }

    /** `handleProviderSubmit`: one request; success closes the form, a failure keeps it open. */
    method SubmitProvider(values: ProviderForm, ok: bool, error: Option<string>)
      modifies this
      ensures sent == old(sent) + [ProviderRequest(old(currentProvider), values)]
      ensures ok ==> !modalVisible && toasts == old(toasts) + [Success(if old(currentProvider).Some? then "更新成功" else "创建成功")]
      ensures !ok ==> modalVisible == old(modalVisible) && toasts == old(toasts) + [Error(if Truthy(error) then error.value else "操作失败")]
      ensures currentProvider == old(currentProvider) && selectedProviderId == old(selectedProviderId)
    {
      var call: Call;
      if currentProvider.Some? {
        var payload := values;
        if values.apiKey.None? || values.apiKey.value == "" {
          payload := values.(apiKey := None);
        }
        call := UpdateProvider(currentProvider.value.id, payload);
      } else {
        call := CreateProvider(values);
      }
      sent := sent + [call];
      if ok {
        toasts := toasts + [Success(if currentProvider.Some? then "更新成功" else "创建成功")];
        modalVisible := false;
      } else {
        toasts := toasts + [Error(if error.Some? && error.value != "" then error.value else "操作失败")];
      }
    }

    /** `handleCreateModel`: refused with a warning when no provider is selected; otherwise a fresh form for it. */
    method CreateModelForm()
      modifies this
      ensures sent == old(sent) && selectedProviderId == old(selectedProviderId)
      ensures !Selected(old(selectedProviderId)) ==>
        toasts == old(toasts) + [Warning(ChooseProvider)] && modelModalVisible == old(modelModalVisible)
        && modelForm == old(modelForm) && currentModel == old(currentModel)
      ensures Selected(old(selectedProviderId)) ==>
        toasts == old(toasts) && modelModalVisible && currentModel.None? && modelForm == NewModelForm(selectedProviderId.value)
    {
      if selectedProviderId.None? || selectedProviderId.value == 0 {
        toasts := toasts + [Warning(ChooseProvider)];
        return;
      }
      currentModel := None;
      modelForm := NewModelForm(selectedProviderId.value);
      modelModalVisible := true;
    }

    /** The confirmation of the detected models: the requests are sent and the count reported. */
    method ConfirmDetected(provider: int, detected: seq<DetectedModel>, outcomes: seq<bool>)
      requires |outcomes| == |detected|
      modifies this
      ensures |sent| == |old(sent)| + |detected| && sent[..|old(sent)|] == old(sent)
      ensures sent[|old(sent)|..] == seq(|detected|, i requires 0 <= i < |detected| => CreateModel(AutoModel(provider, detected[i])))
      ensures toasts == old(toasts) + [Success(AddedMessage(Successes(outcomes)))]
    {
      var calls, n := AddDetected(provider, detected, outcomes);
      sent := sent + calls;
      toasts := toasts + [Success(AddedMessage(n))];
    }
  }

  /** `成功添加 N 个模型`. */
  function AddedMessage(n: nat): string
  {
    "成功添加 " + Text.NatToString(n) + " 个模型"
  }
}
