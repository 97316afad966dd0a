/**
 * The two lifecycle hooks: plugin activation and host bootstrap. Both point
 * the local-model provider at the plugin's "models" directory, then request
 * a model instance when stored settings exist and select offline mode.
 */
module Activation {
  import opened Wrappers
  import opened Options
  import opened PluginSettings

  /** A filesystem path as its sequence of segments. */
  type Path = seq<string>

  /** Directory, under the plugin's own path, where local models are kept. */
  const ModelsDir := "models"

  /** The plugin as the host exposes it: its installation path and what its
      settings loader returns (None when nothing is stored). */
  datatype Plugin = Plugin(path: Path, stored: Option<Payload>)

  /** Python truthiness of a stored value. */
  predicate Truthy(v: SettingValue) {
    match v
    case Bool(b) => b
    case Int(i) => i != 0
    case Str(s) => s != ""
  }

  /** Stored settings the hooks can inspect without a missing-key error: a
      non-empty payload must hold "use_local_model". */
  predicate Inspectable(loaded: Option<Payload>) {
    loaded.Some? && loaded.value != map[] ==> "use_local_model" in loaded.value
  }

  /** Whether the hooks request a local model for these stored settings:
      they exist, are non-empty, and their offline flag is truthy. */
  predicate WantsLocalModel(loaded: Option<Payload>)
    requires Inspectable(loaded)
  {
    loaded.Some? && loaded.value != map[] && Truthy(loaded.value["use_local_model"])
  }

  /** One instance request: the download directory in force when it was
      made, and the settings it was made with. */
  datatype Request = Request(downloadPath: Path, settings: Payload)

  /**
   * Stand-in for the external local transcription provider. It keeps the
   * download directory it was last given and a log of the instance
   * requests, in call order; what an instance request loads or caches is
   * not part of this model.
   */
  class LocalWhisper {
    var downloadPath: Path
    var requests: seq<Request>

    constructor (initialPath: Path)
      ensures downloadPath == initialPath && requests == []
    {
      downloadPath := initialPath;
      requests := [];
    }

    /** Records one request for a model instance configured by `settings`,
        under the current download directory. */
    method GetInstance(settings: Payload)
      modifies this
      ensures requests == old(requests) + [Request(downloadPath, settings)]
      ensures downloadPath == old(downloadPath)
    {
      requests := requests + [Request(downloadPath, settings)];
    }
  }

  /** The shared body of both hooks. */
  method Setup(provider: LocalWhisper, pluginPath: Path, loaded: Option<Payload>)
    requires Inspectable(loaded)
    modifies provider
    ensures provider.downloadPath == pluginPath + [ModelsDir]
    ensures provider.requests == old(provider.requests) +
      if WantsLocalModel(loaded) then [Request(pluginPath + [ModelsDir], loaded.value)] else []
  {
    provider.downloadPath := pluginPath + [ModelsDir];
    if WantsLocalModel(loaded) {
      provider.GetInstance(loaded.value);
    }
  }

  /** Hook run when the plugin is activated. */
  method Activated(provider: LocalWhisper, plugin: Plugin)
    requires Inspectable(plugin.stored)
    modifies provider
    ensures provider.downloadPath == plugin.path + [ModelsDir]
    ensures WantsLocalModel(plugin.stored) ==>
      provider.requests == old(provider.requests) + [Request(plugin.path + [ModelsDir], plugin.stored.value)]
    ensures !WantsLocalModel(plugin.stored) ==> provider.requests == old(provider.requests)
  {
    Setup(provider, plugin.path, plugin.stored);
  }

  /** Hook run once the host has booted, with the currently active plugin;
      the host's registry is a single instance, so the plugin whose path is
      read is the one whose settings are loaded. */
  method AfterCatBootstrap(provider: LocalWhisper, active: Plugin)
    requires Inspectable(active.stored)
    modifies provider
    ensures provider.downloadPath == active.path + [ModelsDir]
    ensures WantsLocalModel(active.stored) ==>
      provider.requests == old(provider.requests) + [Request(active.path + [ModelsDir], active.stored.value)]
    ensures !WantsLocalModel(active.stored) ==> provider.requests == old(provider.requests)
  {
    Setup(provider, active.path, active.stored);
  }

  /** Without stored settings, or with an empty payload, no model is
      requested. */
  lemma NothingStoredNoRequest()
    ensures !WantsLocalModel(None)
    ensures !WantsLocalModel(Some(map[]))
  {
  }

  /** For stored settings that construct successfully, a model is requested
      exactly when the constructed record selects offline mode. */
  lemma RequestFollowsOfflineMode(p: Payload, languages: set<string>, s: Settings)
    requires EN.code in languages
    requires Inspectable(Some(p)) && p != map[]
    requires Construct(p, languages) == Success(s)
    ensures WantsLocalModel(Some(p)) <==> s.useLocalModel
  {
    ConstructExactly(p, languages, s);
  }

  /** Online settings trigger none. */
  lemma OnlineNoRequest(p: Payload)
    requires "use_local_model" in p && p["use_local_model"] == Bool(false)
    ensures !WantsLocalModel(Some(p))
  {
  }

  /** Activation on a fresh provider: the download directory it ends with
      and the instance requests it made. */
  method ActivationOutcome(plugin: Plugin) returns (dir: Path, requested: seq<Request>)
    requires Inspectable(plugin.stored)
    ensures dir == plugin.path + [ModelsDir]
    ensures requested == if WantsLocalModel(plugin.stored) then [Request(dir, plugin.stored.value)] else []
  {
    var provider := new LocalWhisper([]);
    Activated(provider, plugin);
    dir, requested := provider.downloadPath, provider.requests;
  }

  /** Bootstrap on a fresh provider, observed the same way. */
  method BootstrapOutcome(active: Plugin) returns (dir: Path, requested: seq<Request>)
    requires Inspectable(active.stored)
    ensures dir == active.path + [ModelsDir]
    ensures requested == if WantsLocalModel(active.stored) then [Request(dir, active.stored.value)] else []
  {
    var provider := new LocalWhisper([]);
    AfterCatBootstrap(provider, active);
    dir, requested := provider.downloadPath, provider.requests;
  }

  /** Activating with stored offline settings and the base model size makes
      exactly one instance request, made with those settings once the
      download directory is the plugin's "models" directory. */
  method OfflineBaseActivation(path: Path) returns (dir: Path, requested: seq<Request>)
    ensures dir == path + [ModelsDir]
    ensures |requested| == 1
    ensures requested[0] == Request(path + [ModelsDir], map["use_local_model" := Bool(true), "w_model_size" := Str("base")])
  {
    var stored := map["use_local_model" := Bool(true), "w_model_size" := Str("base")];
    assert "use_local_model" in stored;
    dir, requested := ActivationOutcome(Plugin(path, Some(stored)));
  }
}
