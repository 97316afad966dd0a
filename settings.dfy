/**
 * The plugin's settings record and its construction from a stored payload.
 *
 * Construction runs in two stages, as the schema does: first every field is
 * read on its own (the stored value, or the field's default when the key is
 * absent) and checked against its type and bound, and every field that fails
 * is reported together; only when all fields pass do the two cross-field
 * validators run, each either rejecting with a message or passing the record
 * through unchanged.
 */
module PluginSettings {
  import opened Wrappers
  import opened Options

  /** A stored value, typed as the host hands it over. */
  datatype SettingValue = Bool(b: bool) | Int(i: int) | Str(s: string)

  /** The payload: field name to stored value; absent fields take defaults. */
  type Payload = map<string, SettingValue>

  datatype Settings = Settings(
    language: LanguageCode,
    useLocalModel: bool,
    apiKey: string,
    modelSize: ModelSize,
    device: Device,
    nWorkers: int,
    computeType: ComputeType,
    modelPathOrId: string)

  /** The fields of the record, in declaration order. */
  datatype Field =
    | LanguageField | UseLocalModelField | ApiKeyField | ModelSizeField
    | DeviceField | NWorkersField | ComputeTypeField | ModelPathOrIdField
  {
    /** The key under which the field is stored. */
    function Key(): string {
      match this
      case LanguageField => "language"
      case UseLocalModelField => "use_local_model"
      case ApiKeyField => "api_key"
      case ModelSizeField => "w_model_size"
      case DeviceField => "device"
      case NWorkersField => "n_workers"
      case ComputeTypeField => "compute_type"
      case ModelPathOrIdField => "w_model_path_or_id"
    }
  }

  const Fields: seq<Field> := [
    LanguageField, UseLocalModelField, ApiKeyField, ModelSizeField,
    DeviceField, NWorkersField, ComputeTypeField, ModelPathOrIdField]

  /** Why construction failed: the fields that did not pass their own check,
      or the message of the cross-field validator that rejected the record. */
  datatype Error = FieldErrors(fields: seq<Field>) | ValueError(message: string)

  const ModelPathRequired := "Custom Model Path is required when 'Other' is selected in Model Size"
  const ApiKeyRequired := "OpenAI API Key is required for online mode"

  /** The smallest allowed number of workers. */
  const MinWorkers := 1

  /** The three invariants of every constructed record, plus the language
      being a member of the language table. */
  predicate Valid(s: Settings, languages: set<string>) {
    && s.language.code in languages
    && s.nWorkers >= MinWorkers
    && (s.modelSize == Other ==> s.modelPathOrId != "")
    && (!s.useLocalModel ==> s.apiKey != "")
  }

  // Per-field decoding: the default when the key is absent, the parsed value
  // when it is present and well-typed, None when the field fails its check.

  function DecodeLanguage(p: Payload, languages: set<string>): Option<LanguageCode> {
    if "language" !in p then Some(EN)
    else if p["language"].Str? then ParseLanguage(p["language"].s, languages)
    else None
  }

  function DecodeUseLocalModel(p: Payload): Option<bool> {
    if "use_local_model" !in p then Some(true)
    else if p["use_local_model"].Bool? then Some(p["use_local_model"].b)
    else None
  }

  function DecodeApiKey(p: Payload): Option<string> {
    if "api_key" !in p then Some("")
    else if p["api_key"].Str? then Some(p["api_key"].s)
    else None
  }

  function DecodeModelSize(p: Payload): Option<ModelSize> {
    if "w_model_size" !in p then Some(Base)
    else if p["w_model_size"].Str? then ParseModelSize(p["w_model_size"].s)
    else None
  }

  function DecodeDevice(p: Payload): Option<Device> {
    if "device" !in p then Some(Auto)
    else if p["device"].Str? then ParseDevice(p["device"].s)
    else None
  }

  function DecodeNWorkers(p: Payload): Option<int> {
    if "n_workers" !in p then Some(1)
    else if p["n_workers"].Int? && p["n_workers"].i >= MinWorkers then Some(p["n_workers"].i)
    else None
  }

  function DecodeComputeType(p: Payload): Option<ComputeType> {
    if "compute_type" !in p then Some(Float32)
    else if p["compute_type"].Str? then ParseComputeType(p["compute_type"].s)
    else None
  }

  function DecodeModelPathOrId(p: Payload): Option<string> {
    if "w_model_path_or_id" !in p then Some("")
    else if p["w_model_path_or_id"].Str? then Some(p["w_model_path_or_id"].s)
    else None
  }

  /** Whether field `f` passes its own type and bound check. */
  predicate FieldOk(p: Payload, languages: set<string>, f: Field) {
    match f
    case LanguageField => DecodeLanguage(p, languages).Some?
    case UseLocalModelField => DecodeUseLocalModel(p).Some?
    case ApiKeyField => DecodeApiKey(p).Some?
    case ModelSizeField => DecodeModelSize(p).Some?
    case DeviceField => DecodeDevice(p).Some?
    case NWorkersField => DecodeNWorkers(p).Some?
    case ComputeTypeField => DecodeComputeType(p).Some?
    case ModelPathOrIdField => DecodeModelPathOrId(p).Some?
  }

  lemma FieldListed(f: Field)
    ensures f in Fields
  {
    match f
    case LanguageField =>
    case UseLocalModelField =>
    case ApiKeyField =>
    case ModelSizeField =>
    case DeviceField =>
    case NWorkersField =>
    case ComputeTypeField =>
    case ModelPathOrIdField =>
  }

  /** The fields of `fs` that fail their check, in the order of `fs`. */
  function FailingFields(p: Payload, languages: set<string>, fs: seq<Field>): (r: seq<Field>)
    ensures |r| <= |fs|
    ensures forall f :: f in r <==> f in fs && !FieldOk(p, languages, f)
  {
    if fs == [] then []
    else
      var rest := FailingFields(p, languages, fs[1..]);
      if FieldOk(p, languages, fs[0]) then rest else [fs[0]] + rest
  }

  /** `s` holds the payload's values, and each field's default where its key
      is absent. */
  predicate Reflects(p: Payload, languages: set<string>, s: Settings) {
    && (if "language" in p then p["language"] == Str(s.language.code) && s.language.code in languages
        else s.language == EN)
    && (if "use_local_model" in p then p["use_local_model"] == Bool(s.useLocalModel) else s.useLocalModel)
    && (if "api_key" in p then p["api_key"] == Str(s.apiKey) else s.apiKey == "")
    && (if "w_model_size" in p then p["w_model_size"] == Str(s.modelSize.Value()) else s.modelSize == Base)
    && (if "device" in p then p["device"] == Str(s.device.Value()) else s.device == Auto)
    && (if "n_workers" in p then p["n_workers"] == Int(s.nWorkers) && s.nWorkers >= MinWorkers
        else s.nWorkers == 1)
    && (if "compute_type" in p then p["compute_type"] == Str(s.computeType.Value()) else s.computeType == Float32)
    && (if "w_model_path_or_id" in p then p["w_model_path_or_id"] == Str(s.modelPathOrId)
        else s.modelPathOrId == "")
  }

  /** The field-level stage: a record holding the payload's values, or the
      list of every field that failed its check. */
  function DecodeFields(p: Payload, languages: set<string>): (r: Result<Settings, Error>)
    ensures r.Success? <==> forall f :: FieldOk(p, languages, f)
    ensures r.Success? ==> Reflects(p, languages, r.value)
    ensures r.Failure? ==> r.error.FieldErrors? && r.error.fields != []
    ensures r.Failure? ==> forall f :: f in r.error.fields <==> !FieldOk(p, languages, f)
  {
    if forall f :: FieldOk(p, languages, f) then
      assert FieldOk(p, languages, LanguageField) && FieldOk(p, languages, UseLocalModelField)
          && FieldOk(p, languages, ApiKeyField) && FieldOk(p, languages, ModelSizeField)
          && FieldOk(p, languages, DeviceField) && FieldOk(p, languages, NWorkersField)
          && FieldOk(p, languages, ComputeTypeField) && FieldOk(p, languages, ModelPathOrIdField);
      Success(Settings(
        DecodeLanguage(p, languages).value, DecodeUseLocalModel(p).value, DecodeApiKey(p).value,
        DecodeModelSize(p).value, DecodeDevice(p).value, DecodeNWorkers(p).value,
        DecodeComputeType(p).value, DecodeModelPathOrId(p).value))
    else
      assert forall f :: f in Fields by {
        forall f ensures f in Fields { FieldListed(f); }
      }
      Failure(FieldErrors(FailingFields(p, languages, Fields)))
  }

  /** The first cross-field validator: Other needs a custom path or id. */
  function ValidateModelPathOrId(s: Settings): (r: Result<Settings, Error>)
    ensures r.Success? <==> !(s.modelSize == Other && s.modelPathOrId == "")
    ensures r.Success? ==> r.value == s
    ensures r.Failure? ==> r.error == ValueError(ModelPathRequired)
  {
    if s.modelSize == Other && s.modelPathOrId == "" then Failure(ValueError(ModelPathRequired))
    else Success(s)
  }

  /** The second cross-field validator: online mode needs an API key. */
  function ValidateApiKey(s: Settings): (r: Result<Settings, Error>)
    ensures r.Success? <==> !(!s.useLocalModel && s.apiKey == "")
    ensures r.Success? ==> r.value == s
    ensures r.Failure? ==> r.error == ValueError(ApiKeyRequired)
  {
    if !s.useLocalModel && s.apiKey == "" then Failure(ValueError(ApiKeyRequired))
    else Success(s)
  }

  /** Builds the settings record from a payload, or reports why it cannot. */
  function Construct(p: Payload, languages: set<string>): (r: Result<Settings, Error>)
    requires EN.code in languages
    ensures r.Success? ==> Valid(r.value, languages)
    ensures r.Success? ==> DecodeFields(p, languages) == Success(r.value)
    ensures r.Success? <==> DecodeFields(p, languages).Success? && Valid(DecodeFields(p, languages).value, languages)
  {
    var decoded :- DecodeFields(p, languages);
    var checked :- ValidateModelPathOrId(decoded);
    ValidateApiKey(checked)
  }

  // Properties of construction.

  /** A payload determines at most one record that reflects it. */
  lemma ReflectsUnique(p: Payload, languages: set<string>, s: Settings, t: Settings)
    requires Reflects(p, languages, s) && Reflects(p, languages, t)
    ensures s == t
  {
    ModelSizeValuesDistinct(s.modelSize, t.modelSize);
    DeviceValuesDistinct(s.device, t.device);
    ComputeTypeValuesDistinct(s.computeType, t.computeType);
  }

  /** A record reflecting the payload is exactly what the field stage decodes. */
  lemma ReflectsDecodes(p: Payload, languages: set<string>, s: Settings)
    requires EN.code in languages
    requires Reflects(p, languages, s)
    ensures DecodeFields(p, languages) == Success(s)
  {
    ModelSizeRoundTrip(s.modelSize);
    DeviceRoundTrip(s.device);
    ComputeTypeRoundTrip(s.computeType);
    assert forall f :: FieldOk(p, languages, f);
    ReflectsUnique(p, languages, s, DecodeFields(p, languages).value);
  }

  /** Construction yields `s` exactly when `s` holds the payload's values
      (defaults elsewhere) and satisfies every invariant: validation never
      alters a field. */
  lemma ConstructExactly(p: Payload, languages: set<string>, s: Settings)
    requires EN.code in languages
    ensures Construct(p, languages) == Success(s) <==> Reflects(p, languages, s) && Valid(s, languages)
  {
    if Reflects(p, languages, s) && Valid(s, languages) {
      ReflectsDecodes(p, languages, s);
    }
  }

  /** The empty payload yields the documented defaults. */
  lemma EmptyPayloadDefaults(languages: set<string>)
    requires EN.code in languages
    ensures Construct(map[], languages) == Success(Settings(EN, true, "", Base, Auto, 1, Float32, ""))
  {
    ConstructExactly(map[], languages, Settings(EN, true, "", Base, Auto, 1, Float32, ""));
  }

  /** A field that fails its own check fails construction with a field
      error naming it; the cross-field validators never run. */
  lemma FieldFailureSkipsValidators(p: Payload, languages: set<string>, f: Field)
    requires EN.code in languages
    requires !FieldOk(p, languages, f)
    ensures Construct(p, languages).Failure?
    ensures Construct(p, languages).error.FieldErrors?
    ensures f in Construct(p, languages).error.fields
  {
  }

  /** Fewer than one worker fails construction at the field stage. */
  lemma TooFewWorkersFails(p: Payload, languages: set<string>, n: int)
    requires EN.code in languages
    requires "n_workers" in p && p["n_workers"] == Int(n) && n < 1
    ensures Construct(p, languages).Failure?
    ensures Construct(p, languages).error.FieldErrors?
    ensures NWorkersField in Construct(p, languages).error.fields
  {
    FieldFailureSkipsValidators(p, languages, NWorkersField);
  }

  /** Model size "Other" without a custom path fails with the path message,
      whatever the API key and mode: the path validator runs first. */
  lemma OtherWithoutPathFails(p: Payload, languages: set<string>)
    requires EN.code in languages
    requires forall f :: FieldOk(p, languages, f)
    requires "w_model_size" in p && p["w_model_size"] == Str("Other")
    requires "w_model_path_or_id" !in p || p["w_model_path_or_id"] == Str("")
    ensures Construct(p, languages) == Failure(ValueError(ModelPathRequired))
  {
    var s := DecodeFields(p, languages).value;
    ModelSizeValuesDistinct(s.modelSize, Other);
  }

  /** Model size "Other" with a non-empty custom path succeeds when the rest
      of the payload is valid, and keeps the path. */
  lemma OtherWithPathSucceeds(p: Payload, languages: set<string>, path: string)
    requires EN.code in languages
    requires forall f :: FieldOk(p, languages, f)
    requires "w_model_size" in p && p["w_model_size"] == Str("Other")
    requires "w_model_path_or_id" in p && p["w_model_path_or_id"] == Str(path) && path != ""
    requires "use_local_model" in p && p["use_local_model"] == Bool(false) ==> "api_key" in p && p["api_key"] != Str("")
    ensures Construct(p, languages).Success?
    ensures Construct(p, languages).value.modelSize == Other
    ensures Construct(p, languages).value.modelPathOrId == path
  {
    var s := DecodeFields(p, languages).value;
    ModelSizeValuesDistinct(s.modelSize, Other);
  }

  /** Online mode without an API key fails with a validator message; it is
      the API-key message whenever the model-path rule holds. */
  lemma OnlineWithoutKeyFails(p: Payload, languages: set<string>)
    requires EN.code in languages
    requires forall f :: FieldOk(p, languages, f)
    requires "use_local_model" in p && p["use_local_model"] == Bool(false)
    requires "api_key" !in p || p["api_key"] == Str("")
    ensures Construct(p, languages).Failure?
    ensures Construct(p, languages).error in {ValueError(ModelPathRequired), ValueError(ApiKeyRequired)}
    ensures DecodeFields(p, languages).value.modelSize != Other || DecodeFields(p, languages).value.modelPathOrId != ""
            ==> Construct(p, languages) == Failure(ValueError(ApiKeyRequired))
  {
  }

  /** Online mode with a non-empty API key succeeds when the rest of the
      payload is valid, and keeps the key. */
  lemma OnlineWithKeySucceeds(p: Payload, languages: set<string>, key: string)
    requires EN.code in languages
    requires forall f :: FieldOk(p, languages, f)
    requires "use_local_model" in p && p["use_local_model"] == Bool(false)
    requires "api_key" in p && p["api_key"] == Str(key) && key != ""
    requires "w_model_size" in p && p["w_model_size"] == Str("Other") ==>
               "w_model_path_or_id" in p && p["w_model_path_or_id"] != Str("")
    ensures Construct(p, languages).Success?
    ensures !Construct(p, languages).value.useLocalModel
    ensures Construct(p, languages).value.apiKey == key
  {
    var s := DecodeFields(p, languages).value;
    ModelSizeValuesDistinct(s.modelSize, Other);
  }

  /** With both cross-field rules broken, construction fails with one of the
      two validator messages. */
  lemma BothRulesBrokenFails(p: Payload, languages: set<string>)
    requires EN.code in languages
    requires forall f :: FieldOk(p, languages, f)
    requires DecodeFields(p, languages).value.modelSize == Other
    requires DecodeFields(p, languages).value.modelPathOrId == ""
    requires !DecodeFields(p, languages).value.useLocalModel
    requires DecodeFields(p, languages).value.apiKey == ""
    ensures Construct(p, languages).Failure?
    ensures Construct(p, languages).error in {ValueError(ModelPathRequired), ValueError(ApiKeyRequired)}
  {
  }
}
