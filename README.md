# WhisperingCat settings and activation, in Dafny

A model of the settings layer of the WhisperingCat plugin, which adds local
(Whisper) or online (OpenAI) audio transcription to the Cheshire Cat host.
It covers two things:

- **Settings construction** (`PluginSettings`). A stored payload maps field
  names to values. It becomes a `Settings` record or a validation error.
  First each of the eight fields is decoded on its own: an absent key takes
  its default, and a present key must have the right type and, for the
  option sets, one of the listed values. `n_workers` must be at least 1.
  Every failing field is reported at once. When all fields pass, two
  cross-field validators run. Model size `Other` needs a non-empty custom
  model path or id. Online mode (`use_local_model` false) needs a non-empty
  API key. Each validator rejects with the source's message or passes the
  record through unchanged. The option sets (`ModelSize`, `Device`,
  `ComputeType` and the language code) live in `Options`, each with its
  string values and a parser that accepts exactly those values.
- **Activation** (`Activation`). The plugin-activation hook and the
  bootstrap hook behave the same way. Each sets the provider's download
  directory to `<plugin path>/models`. Each then asks the provider for a
  model instance only when stored settings exist, are non-empty, and have
  a truthy `use_local_model`. The external `LocalWhisper` provider is a
  class with two fields: `downloadPath`, and `requests`, a log of the
  `get_instance` calls. Each entry records the settings passed and the
  download directory in force at the time of the call.

The properties proved:
- every constructed record satisfies the three invariants;
- construction yields a record exactly when the record holds the payload's
  values (defaults elsewhere) and satisfies them;
- the empty payload yields the documented defaults;
- field failures stop construction before either cross-field validator runs;
- each cross-field rule fails with its own message, and a valid payload
  that satisfies the rule succeeds;
- each option set's values are pairwise distinct, and parsing round-trips;
- each hook sets the download path and makes exactly one or zero instance
  requests.

Files: `wrappers.dfy` (Option, Result), `options.dfy`, `settings.dfy`,
`activation.dfy`.

## Model

| member | source | states |
|---|---|---|
| `Options.ParseLanguage` | src/settings.py:13-20 | a language code is accepted exactly when it is a value of the language table, and keeps that value |
| `Options.ParseModelSize` | src/settings.py:23-36 | a parsed model size has exactly the parsed string as its value |
| `Options.ModelSizeRoundTrip` | src/settings.py:23-36 | parsing a model size's value gives back that model size |
| `Options.ModelSizeValuesDistinct` | src/settings.py:23-36 | two model sizes have the same value exactly when they are the same member |
| `Options.ModelSizeParseComplete` | src/settings.py:23-36 | parsing fails exactly on strings that are no model size's value |
| `Options.OtherOnlyFromItsValue` | src/settings.py:36 | the only string that selects `Other` is "Other" |
| `Options.ParseDevice` | src/settings.py:39-42 | a parsed device has exactly the parsed string as its value |
| `Options.DeviceRoundTrip` | src/settings.py:39-42 | parsing a device's value gives back that device |
| `Options.DeviceValuesDistinct` | src/settings.py:39-42 | device values are pairwise distinct |
| `Options.DeviceParseComplete` | src/settings.py:39-42 | device parsing fails exactly on strings that are no device's value |
| `Options.ParseComputeType` | src/settings.py:45-53 | a parsed precision has exactly the parsed string as its value |
| `Options.ComputeTypeRoundTrip` | src/settings.py:45-53 | parsing a precision's value gives back that precision |
| `Options.ComputeTypeValuesDistinct` | src/settings.py:45-53 | precision values are pairwise distinct |
| `Options.ComputeTypeParseComplete` | src/settings.py:45-53 | precision parsing fails exactly on strings that are no precision's value |
| `PluginSettings.FailingFields` | src/settings.py:56-105 | the reported fields are exactly the listed fields that fail their own check, no more of them than were listed |
| `PluginSettings.DecodeFields` | src/settings.py:56-105 | the field stage succeeds exactly when every field passes; its record then holds the payload's values with defaults for absent keys; otherwise it reports a non-empty list naming exactly the failing fields |
| `PluginSettings.ValidateModelPathOrId` | src/settings.py:107-111 | rejects with the custom-model-path message exactly when the size is `Other` and the path is empty; otherwise returns the record unchanged |
| `PluginSettings.ValidateApiKey` | src/settings.py:113-117 | rejects with the API-key message exactly when online mode has an empty key; otherwise returns the record unchanged |
| `PluginSettings.Construct` | src/settings.py:56-117 | every constructed record is valid (workers at least 1, `Other` has a path, online has a key, language in the table) and equals the field stage's record; construction succeeds exactly when the field stage succeeds with a valid record |
| `PluginSettings.ReflectsUnique` | src/settings.py:56-105 | a payload determines at most one record holding its values |
| `PluginSettings.ReflectsDecodes` | src/settings.py:56-105 | any record holding the payload's values is what the field stage decodes |
| `PluginSettings.ConstructExactly` | src/settings.py:56-117 | construction yields `s` if and only if `s` holds the payload's values (defaults elsewhere) and is valid: validation never alters a field |
| `PluginSettings.EmptyPayloadDefaults` | src/settings.py:57-105 | the empty payload yields language en, offline mode, empty key, size base, device auto, one worker, float32, empty path |
| `PluginSettings.FieldFailureSkipsValidators` | src/settings.py:56-117 | a field that fails its own check fails construction with a field error naming it, never a validator message |
| `PluginSettings.TooFewWorkersFails` | src/settings.py:88-93 | a stored worker count below 1 fails construction at the field stage, naming `n_workers` |
| `PluginSettings.OtherWithoutPathFails` | src/settings.py:107-111 | with every field valid, size "Other" and an empty or absent path fail with the custom-model-path message, whatever the mode and key, because the path validator is declared, and runs, first |
| `PluginSettings.OtherWithPathSucceeds` | src/settings.py:107-111 | size "Other" with a non-empty path succeeds when the rest is valid, and keeps the path |
| `PluginSettings.OnlineWithoutKeyFails` | src/settings.py:113-117 | online mode with an empty or absent key fails with a validator message, and with the API-key message whenever the path rule holds |
| `PluginSettings.OnlineWithKeySucceeds` | src/settings.py:113-117 | online mode with a non-empty key succeeds when the rest is valid, and keeps the key |
| `PluginSettings.BothRulesBrokenFails` | src/settings.py:107-117 | with both cross-field rules broken, construction fails with one of the two validator messages |
| `Activation.LocalWhisper.GetInstance` | src/settings.py:133 | an instance request is logged with its settings and the download directory current at the call, and the download path is untouched |
| `Activation.Setup` | src/settings.py:128-133 | the download path becomes the plugin path plus "models"; one request is logged exactly when the stored settings exist, are non-empty and select offline mode, none otherwise; the request carries those settings and the new download directory, so it is made after the path is set |
| `Activation.Activated` | src/settings.py:125-133 | activation sets the download path to the plugin path plus "models", then logs one request with the stored settings under that directory when they select offline mode, none otherwise |
| `Activation.AfterCatBootstrap` | src/settings.py:136-144 | bootstrap does the same for the active plugin |
| `Activation.ActivationOutcome` | src/settings.py:126-133 | activation on a fresh provider ends with the plugin's models directory; it makes one request, carrying that directory and the stored settings, if offline settings are stored, and none otherwise |
| `Activation.BootstrapOutcome` | src/settings.py:137-144 | the same for the bootstrap hook |
| `Activation.NothingStoredNoRequest` | src/settings.py:132 | no stored settings, or an empty payload, means no request |
| `Activation.RequestFollowsOfflineMode` | src/settings.py:131-133 | for stored settings that construct successfully, a request is made exactly when the constructed record is in offline mode |
| `Activation.OfflineBaseActivation` | src/settings.py:126-133 | activating with stored settings `{use_local_model: true, w_model_size: "base"}` makes exactly one request, with those settings and the download directory already set to the plugin path plus "models" |
| `Activation.OnlineNoRequest` | src/settings.py:142-144 | stored settings with `use_local_model` false trigger no request |

## Left out

- The language table comes from the external pycountry data (src/settings.py:13-20). The model takes the table's lower-case values as a parameter. Construction requires "en" to be one of them, since the default `LanguageCode.EN` must exist.
- Type coercion is not modelled. A stored value must already have the field's type: a boolean, an integer, or a string for text and option fields. A value of another type is reported as a field error, where the schema library's lax mode would convert it and succeed: for example `Int(1)` or `Str("true")` for `use_local_model`, or `Str("3")` for `n_workers`. On such payloads `Construct`, and the "only if" direction of `ConstructExactly`, are stricter than the source. Null and floating-point values are not modelled either.
- The API key is a plain string. Its redaction in representations is not modelled. Its emptiness is what the validator tests.
- Field titles and descriptions are not modelled: they are UI text. Keys not in the schema are ignored, as the schema library does by default.
- PluginSettings.OnlineWithoutKeyFails: when both cross-field rules are broken, this states only that one of the two validator messages is reported. The model fixes the schema library's order, which runs after-validators in definition order (path rule first). `OtherWithoutPathFails` depends on that order: it promises the path message even when the API-key rule is also broken.
- `settings_model` (src/settings.py:120-122) and the `@plugin`/`@hook` registration are host plumbing and are not modelled.
- The provider's internals are not modelled: model loading, instance caching and what the download directory is used for. The `transcribe` module is not part of this model. `get_instance` is recorded in a log and does nothing else.
- `load_settings()` is I/O. Its result is an input (`Plugin.stored`). The missing-key error on a non-empty payload without `use_local_model` is excluded by the `Inspectable` precondition.
- `AfterCatBootstrap` reads the plugin path through a fresh registry handle and the settings through the host's registry. The model assumes both name the same active plugin, because the registry is a single instance.
- Paths are segment sequences. Joining "models" appends a segment; normalisation and other filesystem semantics are not modelled.
- Building the same payload twice gives equal records because `Construct` is a function; no separate property is stated.
