/**
  The options popup (src/popup.js): a form whose inputs are read trimmed, whose
  translator choice shows the Baidu or the LLM group, and whose values are saved to and
  loaded from extension storage with defaults for the translator, the target language,
  the LLM provider and its model.
*/
module Popup {
  import opened JsStrings
  import opened JsValues
  import opened ExtensionStorage

  const DefaultLlmProvider := "openai"
  const DefaultTargetLanguage := "zh-CN"
  const DefaultTranslator := "google"

  /** The seven inputs of the form. */
  datatype Field = Translator | TargetLanguage | AppId | AppKey | LlmProvider | LlmApiKey | LlmModel

  /** An input's `name`, which is also the storage key its value is saved under. */
  function Name(f: Field): string {
    match f
    case Translator => "translator"
    case TargetLanguage => "targetLanguage"
    case AppId => "appId"
    case AppKey => "appKey"
    case LlmProvider => "llmProvider"
    case LlmApiKey => "llmApiKey"
    case LlmModel => "llmModel"
  }

  /** The seven storage keys are distinct. */
  lemma NamesDistinct()
    ensures forall f, g :: f != g ==> Name(f) != Name(g)
  {
    forall f, g | f != g ensures Name(f) != Name(g) {
      assert |Name(f)| != |Name(g)|;
    }
  }

  /** The two groups `toggleGroup` shows and hides. */
  datatype Group = BaiduGroup | LlmGroup

  /** `LLM_DEFAULT_MODEL_MAP[provider]`: the default model of each known provider, and
      `undefined` for any other name. */
  function DefaultModel(provider: string): (r: JsValue)
    ensures r.Str? || r == Undefined
    ensures r.Str? ==> r.s != ""
    ensures provider == DefaultLlmProvider ==> r == Str("gpt-4o-mini")
  {
    if provider == "openai" then Str("gpt-4o-mini")
    else if provider == "anthropic" then Str("claude-3-5-haiku-latest")
    else if provider == "gemini" then Str("gemini-2.0-flash")
    else if provider == "openrouter" then Str("deepseek/deepseek-chat-v3-0324:free")
    else if provider == "deepseek" then Str("deepseek-chat")
    else if provider == "groq" then Str("llama-3.3-70b-versatile")
    else if provider == "siliconflow" then Str("Qwen/Qwen2.5-7B-Instruct")
    else Undefined
  }

  /** Every default model is written without surrounding white space, so reading it
      back through `getValue` gives it unchanged. */
  lemma DefaultModelTrimmed(provider: string)
    ensures DefaultModel(provider).Str? ==> IsTrimmed(DefaultModel(provider).s)
  {
    if provider == "openai" { assert IsTrimmed("gpt-4o-mini"); }
    else if provider == "anthropic" { assert IsTrimmed("claude-3-5-haiku-latest"); }
    else if provider == "gemini" { assert IsTrimmed("gemini-2.0-flash"); }
    else if provider == "openrouter" { assert IsTrimmed("deepseek/deepseek-chat-v3-0324:free"); }
    else if provider == "deepseek" { assert IsTrimmed("deepseek-chat"); }
    else if provider == "groq" { assert IsTrimmed("llama-3.3-70b-versatile"); }
    else if provider == "siliconflow" { assert IsTrimmed("Qwen/Qwen2.5-7B-Instruct"); }
  }

  /** `s || d` on strings: the default replaces the empty string. */
  function OrDefault(s: string, d: string): (r: string)
    ensures s != "" ==> r == s
    ensures s == "" ==> r == d
  {
    if s == "" then d else s
  }

  /** `v || d` on values. */
  function OrValue(v: JsValue, d: JsValue): (r: JsValue)
    ensures Truthy(v) ==> r == v
    ensures !Truthy(v) ==> r == d
  {
    if Truthy(v) then v else d
  }

  /** `v ?? d`. */
  function Coalesce(v: JsValue, d: JsValue): (r: JsValue)
    ensures Nullish(v) ==> r == d
    ensures !Nullish(v) ==> r == v
  {
    if Nullish(v) then d else v
  }

  /** The inputs of the form (their current text) and the groups (whether each carries
      `is-hidden`). An input or group that is absent has no element in the page. */
  datatype Form = Form(inputs: map<Field, string>, hidden: map<Group, bool>)

  /** `getValue(name)`: the trimmed text of the input, or "" when there is none. */
  function Value(form: Form, f: Field): (r: string)
    ensures IsTrimmed(r)
    ensures f !in form.inputs ==> r == ""
    ensures f in form.inputs ==> r == Trim(form.inputs[f])
    ensures f in form.inputs && IsTrimmed(form.inputs[f]) ==> r == form.inputs[f]
  {
    if f in form.inputs then Trim(form.inputs[f]) else ""
  }

  /** The text an input holds after `$input.value = value` with the parameter's default
      `""`: `undefined` and `null` become "", anything else its string form. */
  function InputText(v: JsValue): (r: string)
    ensures v.Str? ==> r == v.s
    ensures v == Undefined || v == Null ==> r == ""
  {
    if v == Undefined || v == Null then "" else ToString(v)
  }

  /** `setValue(name, value)`: only an existing input changes. */
  function WithValue(form: Form, f: Field, v: JsValue): (r: Form)
    ensures r.hidden == form.hidden
    ensures r.inputs.Keys == form.inputs.Keys
    ensures f in form.inputs ==> r.inputs[f] == InputText(v)
    ensures forall g :: g in form.inputs && g != f ==> r.inputs[g] == form.inputs[g]
  {
    if f in form.inputs then form.(inputs := form.inputs[f := InputText(v)]) else form
  }

  /** `toggleGroup(name, isVisible)`: an existing group is hidden exactly when not visible. */
  function WithGroup(form: Form, g: Group, visible: bool): (r: Form)
    ensures r.inputs == form.inputs
    ensures r.hidden.Keys == form.hidden.Keys
    ensures g in form.hidden ==> r.hidden[g] == !visible
    ensures forall h :: h in form.hidden && h != g ==> r.hidden[h] == form.hidden[h]
  {
    if g in form.hidden then form.(hidden := form.hidden[g := !visible]) else form
  }

  /** The translator the form selects; an empty choice counts as Google. */
  function SelectedTranslator(form: Form): string {
    OrDefault(Value(form, Translator), DefaultTranslator)
  }

  /** `updateVisibility()`: the Baidu group is shown exactly for "baidu" and the LLM group
      exactly for "llm"; the inputs are untouched. */
  function Visibility(form: Form): (r: Form)
    ensures r.inputs == form.inputs && r.hidden.Keys == form.hidden.Keys
    ensures BaiduGroup in form.hidden ==> (r.hidden[BaiduGroup] <==> SelectedTranslator(form) != "baidu")
    ensures LlmGroup in form.hidden ==> (r.hidden[LlmGroup] <==> SelectedTranslator(form) != "llm")
  {
    var translator := SelectedTranslator(form);
    WithGroup(WithGroup(form, BaiduGroup, translator == "baidu"), LlmGroup, translator == "llm")
  }

  /** The Baidu and LLM groups are never shown together, and an empty translator shows
      neither. */
  lemma VisibilityExclusive(form: Form)
    requires BaiduGroup in form.hidden && LlmGroup in form.hidden
    ensures var r := Visibility(form);
      && (r.hidden[BaiduGroup] || r.hidden[LlmGroup])
      && (Value(form, Translator) == "" ==> r.hidden[BaiduGroup] && r.hidden[LlmGroup])
  {
  }

  /** The provider the form selects, with the default for an empty one. */
  function SelectedProvider(form: Form): string {
    OrDefault(Value(form, LlmProvider), DefaultLlmProvider)
  }

  /** `maybeApplyDefaultModel(force)`: the model input takes the provider's default when
      forced or empty, and nothing changes otherwise. */
  function ApplyDefaultModel(form: Form, force: bool): (r: Form)
    ensures r.hidden == form.hidden && r.inputs.Keys == form.inputs.Keys
    ensures !force && Value(form, LlmModel) != "" ==> r == form
    ensures LlmModel !in form.inputs ==> r == form
    ensures (force || Value(form, LlmModel) == "") && LlmModel in form.inputs ==>
      && r.inputs[LlmModel] == InputText(DefaultModel(SelectedProvider(form)))
      && (forall g :: g in form.inputs && g != LlmModel ==> r.inputs[g] == form.inputs[g])
  {
    if force || Value(form, LlmModel) == "" then
      WithValue(form, LlmModel, DefaultModel(SelectedProvider(form)))
    else form
  }

  /** The object `saveApiConfig` stores. */
  datatype Payload = Payload(
    translator: string,
    targetLanguage: string,
    appId: string,
    appKey: string,
    llmProvider: string,
    llmApiKey: string,
    llmModel: JsValue)

  /** The payload for the given trimmed values, with the defaults applied. */
  function Build(translator: string, targetLanguage: string, appId: string, appKey: string,
                 llmProvider: string, llmApiKey: string, llmModel: string): Payload {
    var provider := OrDefault(llmProvider, DefaultLlmProvider);
    Payload(OrDefault(translator, DefaultTranslator), OrDefault(targetLanguage, DefaultTargetLanguage),
            appId, appKey, provider, llmApiKey,
            if llmModel != "" then Str(llmModel) else DefaultModel(provider))
  }

  /** The payload `saveApiConfig` builds from the form: the trimmed values, with
      defaults for an empty translator, target language, provider or model. */
  function SavePayload(form: Form): (p: Payload)
    ensures Value(form, Translator) == "" ==> p.translator == DefaultTranslator
    ensures Value(form, Translator) != "" ==> p.translator == Value(form, Translator)
    ensures Value(form, TargetLanguage) == "" ==> p.targetLanguage == DefaultTargetLanguage
    ensures Value(form, TargetLanguage) != "" ==> p.targetLanguage == Value(form, TargetLanguage)
    ensures p.llmProvider == SelectedProvider(form)
    ensures p.appId == Value(form, AppId) && p.appKey == Value(form, AppKey) && p.llmApiKey == Value(form, LlmApiKey)
    ensures Value(form, LlmModel) != "" ==> p.llmModel == Str(Value(form, LlmModel))
    ensures Value(form, LlmModel) == "" ==> p.llmModel == DefaultModel(p.llmProvider)
  {
    Build(Value(form, Translator), Value(form, TargetLanguage), Value(form, AppId), Value(form, AppKey),
          Value(form, LlmProvider), Value(form, LlmApiKey), Value(form, LlmModel))
  }

  /** The value the payload holds for a field. */
  function PayloadValue(p: Payload, f: Field): JsValue {
    match f
    case Translator => Str(p.translator)
    case TargetLanguage => Str(p.targetLanguage)
    case AppId => Str(p.appId)
    case AppKey => Str(p.appKey)
    case LlmProvider => Str(p.llmProvider)
    case LlmApiKey => Str(p.llmApiKey)
    case LlmModel => p.llmModel
  }

  /** `chrome.storage.local.set(payload)`: the seven keys are overwritten and every other
      key is kept. */
  function Store(storage: Storage, p: Payload): Storage {
    storage[Name(Translator) := Str(p.translator)][Name(TargetLanguage) := Str(p.targetLanguage)]
      [Name(AppId) := Str(p.appId)][Name(AppKey) := Str(p.appKey)][Name(LlmProvider) := Str(p.llmProvider)]
      [Name(LlmApiKey) := Str(p.llmApiKey)][Name(LlmModel) := p.llmModel]
  }

  /** After storing, each of the seven keys reads back as the payload's value. */
  lemma StoreRead(storage: Storage, p: Payload, f: Field)
    ensures Read(Store(storage, p), Name(f)) == PayloadValue(p, f)
  {
    NamesDistinct();
  }

  /** Storing keeps every other key. */
  lemma StoreKeeps(storage: Storage, p: Payload, k: string)
    requires k in storage
    requires forall f :: k != Name(f)
    ensures k in Store(storage, p) && Store(storage, p)[k] == storage[k]
  {
  }

  /** `getTranslatorFromStorage(storage)`: a truthy stored translator wins; otherwise
      Baidu exactly when both credentials are truthy, and Google if not. */
  function TranslatorFromStorage(storage: Storage): (t: JsValue)
    ensures Truthy(Read(storage, "translator")) ==> t == Read(storage, "translator")
    ensures !Truthy(Read(storage, "translator")) ==>
      (t == Str("baidu") <==> Truthy(Read(storage, "appId")) && Truthy(Read(storage, "appKey")))
    ensures !Truthy(Read(storage, "translator")) ==> t == Str("baidu") || t == Str("google")
  {
    var stored := Read(storage, "translator");
    if Truthy(stored) then stored
    else if Truthy(Read(storage, "appId")) && Truthy(Read(storage, "appKey")) then Str("baidu")
    else Str("google")
  }

  /** The provider `init` selects: the stored one when truthy, else the default. */
  function LoadedProvider(storage: Storage): JsValue {
    OrValue(Read(storage, "llmProvider"), Str(DefaultLlmProvider))
  }

  /** The value `init` sets an input to. */
  function LoadedValue(storage: Storage, f: Field): (v: JsValue)
    ensures f == Translator ==> v == TranslatorFromStorage(storage)
    ensures f in {TargetLanguage, LlmProvider, LlmModel} && Truthy(Read(storage, Name(f))) ==> v == Read(storage, Name(f))
    ensures f == TargetLanguage && !Truthy(Read(storage, Name(f))) ==> v == Str(DefaultTargetLanguage)
    ensures f == LlmProvider && !Truthy(Read(storage, Name(f))) ==> v == Str(DefaultLlmProvider)
    ensures f == LlmModel && !Truthy(Read(storage, Name(f))) ==> v == DefaultModel(ToString(LoadedProvider(storage)))
    ensures f in {AppId, AppKey, LlmApiKey} && !Nullish(Read(storage, Name(f))) ==> v == Read(storage, Name(f))
    ensures f in {AppId, AppKey, LlmApiKey} && Nullish(Read(storage, Name(f))) ==> v == Str("")
  {
    match f
    case Translator => TranslatorFromStorage(storage)
    case TargetLanguage => OrValue(Read(storage, "targetLanguage"), Str(DefaultTargetLanguage))
    case AppId => Coalesce(Read(storage, "appId"), Str(""))
    case AppKey => Coalesce(Read(storage, "appKey"), Str(""))
    case LlmProvider => LoadedProvider(storage)
    case LlmApiKey => Coalesce(Read(storage, "llmApiKey"), Str(""))
    case LlmModel => OrValue(Read(storage, "llmModel"), DefaultModel(ToString(LoadedProvider(storage))))
  }

  /** The values `init` takes from storage, one per field. */
  function Loader(storage: Storage): Field -> JsValue {
    f => LoadedValue(storage, f)
  }

  /** Seven `setValue` calls, one per field in the order `init` makes them. */
  function SetAll(form: Form, values: Field -> JsValue): Form {
    var f1 := WithValue(form, Translator, values(Translator));
    var f2 := WithValue(f1, TargetLanguage, values(TargetLanguage));
    var f3 := WithValue(f2, AppId, values(AppId));
    var f4 := WithValue(f3, AppKey, values(AppKey));
    var f5 := WithValue(f4, LlmProvider, values(LlmProvider));
    var f6 := WithValue(f5, LlmApiKey, values(LlmApiKey));
    WithValue(f6, LlmModel, values(LlmModel))
  }

  /** After the seven calls every existing input holds its own value, and nothing else
      changed. */
  lemma SetAllValue(form: Form, values: Field -> JsValue, f: Field)
    ensures SetAll(form, values).hidden == form.hidden
    ensures SetAll(form, values).inputs.Keys == form.inputs.Keys
    ensures f in form.inputs ==> SetAll(form, values).inputs[f] == InputText(values(f))
  {
  }

  /** The inputs after `init()` has set each of them from storage. */
  function LoadedInputs(form: Form, storage: Storage): Form {
    SetAll(form, Loader(storage))
  }

  /** The form after `init()`: the inputs set, then the groups updated. */
  function Loaded(form: Form, storage: Storage): Form {
    Visibility(LoadedInputs(form, storage))
  }

  /** The value the payload's field shows once loaded into an input. */
  function Shown(p: Payload, f: Field): string {
    InputText(PayloadValue(p, f))
  }

  /** What every saved payload satisfies: the defaulted fields are non-empty, the texts
      are trimmed, and the model is a non-empty trimmed text, or `undefined` exactly when
      the provider has no default. */
  predicate Saved(p: Payload) {
    && p.translator != "" && IsTrimmed(p.translator)
    && p.targetLanguage != "" && IsTrimmed(p.targetLanguage)
    && p.llmProvider != "" && IsTrimmed(p.llmProvider)
    && IsTrimmed(p.appId) && IsTrimmed(p.appKey) && IsTrimmed(p.llmApiKey)
    && (p.llmModel == Undefined || (p.llmModel.Str? && p.llmModel.s != "" && IsTrimmed(p.llmModel.s)))
    && (p.llmModel == Undefined ==> DefaultModel(p.llmProvider) == Undefined)
  }

  /** `saveApiConfig` only writes payloads that satisfy `Saved`. */
  lemma SavePayloadSaved(form: Form)
    ensures Saved(SavePayload(form))
  {
    BuildSaved(Value(form, Translator), Value(form, TargetLanguage), Value(form, AppId), Value(form, AppKey),
               Value(form, LlmProvider), Value(form, LlmApiKey), Value(form, LlmModel));
  }

  /** `Build` turns trimmed values into a saved payload. */
  lemma BuildSaved(translator: string, targetLanguage: string, appId: string, appKey: string,
                   llmProvider: string, llmApiKey: string, llmModel: string)
    requires IsTrimmed(translator) && IsTrimmed(targetLanguage) && IsTrimmed(appId) && IsTrimmed(appKey)
    requires IsTrimmed(llmProvider) && IsTrimmed(llmApiKey) && IsTrimmed(llmModel)
    ensures Saved(Build(translator, targetLanguage, appId, appKey, llmProvider, llmApiKey, llmModel))
  {
    DefaultModelTrimmed(OrDefault(llmProvider, DefaultLlmProvider));
  }

  /** Loading a storage that holds a saved payload under the seven keys shows each
      field of the payload. */
  lemma LoadShowsStored(other: Form, s: Storage, p: Payload, f: Field)
    requires f in other.inputs
    requires Saved(p)
    requires forall g :: Read(s, Name(g)) == PayloadValue(p, g)
    ensures Value(Loaded(other, s), f) == Shown(p, f)
  {
    LoadedField(other, s, f);
    if f == LlmModel {
      LoadedModel(s, p);
    } else {
      LoadedText(s, p, f);
    }
  }

  /** After `init()` an input holds the text of the value it was loaded with. */
  lemma LoadedField(other: Form, s: Storage, f: Field)
    requires f in other.inputs
    ensures Value(Loaded(other, s), f) == Trim(InputText(LoadedValue(s, f)))
  {
    SetAllValue(other, Loader(s), f);
  }

  /** A saved text field is loaded as itself: the defaulted ones are non-empty, so no
      default replaces them, and the credentials are not nullish. */
  lemma LoadedText(s: Storage, p: Payload, f: Field)
    requires f != LlmModel
    requires Saved(p)
    requires Read(s, Name(f)) == PayloadValue(p, f)
    ensures Trim(InputText(LoadedValue(s, f))) == Shown(p, f)
  {
  }

  /** The saved model is loaded as itself, and `undefined` only where the saved
      provider has no default either. */
  lemma LoadedModel(s: Storage, p: Payload)
    requires Saved(p)
    requires Read(s, Name(LlmModel)) == p.llmModel
    requires Read(s, Name(LlmProvider)) == Str(p.llmProvider)
    ensures Trim(InputText(LoadedValue(s, LlmModel))) == Shown(p, LlmModel)
  {
    assert LoadedProvider(s) == Str(p.llmProvider);
    assert ToString(LoadedProvider(s)) == p.llmProvider;
    if p.llmModel == Undefined {
      assert LoadedValue(s, LlmModel) == Undefined;
    } else {
      assert LoadedValue(s, LlmModel) == p.llmModel;
    }
  }

  /** Saving the form and loading the stored payload into a popup shows every saved
      field again: the translator, language and provider are written non-empty, the
      credentials as their trimmed values, and the model as saved ("" when the provider
      has no default). */
  lemma SaveThenLoad(form: Form, other: Form, storage: Storage, f: Field)
    requires f in other.inputs
    ensures var p := SavePayload(form);
      Value(Loaded(other, Store(storage, p)), f) == Shown(p, f)
  {
    var p := SavePayload(form);
    forall g ensures Read(Store(storage, p), Name(g)) == PayloadValue(p, g) {
      StoreRead(storage, p, g);
    }
    SavePayloadSaved(form);
    LoadShowsStored(other, Store(storage, p), p, f);
  }

  /** The popup's form, whose inputs and groups the handlers update in place. */
  class Page {
    var inputs: map<Field, string>
    var hidden: map<Group, bool>

    function Current(): Form
      reads this
    {
      Form(inputs, hidden)
    }

    constructor(inputs0: map<Field, string>, hidden0: map<Group, bool>)
      ensures Current() == Form(inputs0, hidden0)
    {
      inputs, hidden := inputs0, hidden0;
    }

    /** `getValue(name)`. */
    function GetValue(f: Field): (r: string)
      reads this
      ensures r == Value(Current(), f)
    {
      if f in inputs then Trim(inputs[f]) else ""
    }

    /** `setValue(name, value)`. */
    method SetValue(f: Field, value: JsValue)
      modifies this
      ensures Current() == WithValue(old(Current()), f, value)
    {
      if f in inputs {
        inputs := inputs[f := InputText(value)];
      }
    }

    /** `toggleGroup(name, isVisible)`. */
    method ToggleGroup(g: Group, isVisible: bool)
      modifies this
      ensures Current() == WithGroup(old(Current()), g, isVisible)
    {
      if g in hidden {
        hidden := hidden[g := !isVisible];
      }
    }

    /** `updateVisibility()`. */
    method UpdateVisibility()
      modifies this
      ensures Current() == Visibility(old(Current()))
    {
      var translator := GetValue(Translator);
      if translator == "" {
        translator := DefaultTranslator;
      }
      ToggleGroup(BaiduGroup, translator == "baidu");
      ToggleGroup(LlmGroup, translator == "llm");
    }

    /** `maybeApplyDefaultModel(force)`. */
    method MaybeApplyDefaultModel(force: bool)
      modifies this
      ensures Current() == ApplyDefaultModel(old(Current()), force)
    {
      var llmProvider := GetValue(LlmProvider);
      if llmProvider == "" {
        llmProvider := DefaultLlmProvider;
      }
      var model := GetValue(LlmModel);
      if force || model == "" {
        SetValue(LlmModel, DefaultModel(llmProvider));
      }
    }

    /** `saveApiConfig()`: the payload it writes. Writing it, announcing the change to the
        service worker and showing the saved status are not modelled. */
    method SaveApiConfig() returns (payload: Payload)
      ensures payload == SavePayload(Current())
    {
      var translator := GetValue(Translator);
      if translator == "" { translator := DefaultTranslator; }
      var targetLanguage := GetValue(TargetLanguage);
      if targetLanguage == "" { targetLanguage := DefaultTargetLanguage; }
      var llmProvider := GetValue(LlmProvider);
      if llmProvider == "" { llmProvider := DefaultLlmProvider; }
      var llmModel := Str(GetValue(LlmModel));
      if llmModel == Str("") { llmModel := DefaultModel(llmProvider); }
      payload := Payload(translator, targetLanguage, GetValue(AppId), GetValue(AppKey),
                         llmProvider, GetValue(LlmApiKey), llmModel);
    }

    /** `init()`, given what `chrome.storage.local.get()` resolves with. */
    method Init(storage: Storage)
      modifies this
      ensures Current() == Loaded(old(Current()), storage)
    {
      var values := Loader(storage);
      SetValue(Translator, values(Translator));
      SetValue(TargetLanguage, values(TargetLanguage));
      SetValue(AppId, values(AppId));
      SetValue(AppKey, values(AppKey));
      SetValue(LlmProvider, values(LlmProvider));
      SetValue(LlmApiKey, values(LlmApiKey));
      SetValue(LlmModel, values(LlmModel));
      UpdateVisibility();
    }

    /** The `input`/`change` handler of an input; the debounced save that follows is not
        modelled. */
    method OnFieldChange(f: Field)
      modifies this
      ensures Current() == Visibility(if f == LlmProvider then ApplyDefaultModel(old(Current()), false) else old(Current()))
    {
      if f == LlmProvider {
        MaybeApplyDefaultModel(false);
      }
      UpdateVisibility();
    }
  }
}
