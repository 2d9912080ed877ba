/** The recognizer's configuration, its catalogue of language models and the
    rules that pick the model and the input device when a session starts. */
module Settings {
  import opened Options

  /** The keys of config.json that the recognizer reads. */
  datatype Config = Config(
    modelPath: string,
    sampleRate: int,
    channels: int,
    deviceIndex: int,
    chunkSize: int)

  const DefaultModelPath: string := "./models/vosk-model-small-en-us-0.15"

  /** The configuration used when config.json cannot be read or parsed. */
  const DefaultConfig: Config := Config(DefaultModelPath, 16000, 1, 0, 2048)

  /** The configuration in force: what was loaded, or the built-in defaults on any load failure.
      `loaded` is None when opening or parsing the file raised. */
  function ConfigOrDefault(loaded: Option<Config>): (c: Config)
    ensures loaded.Some? ==> c == loaded.value
    ensures loaded.None? ==> c.sampleRate == 16000 && c.channels == 1 && c.deviceIndex == 0
                             && c.chunkSize == 2048 && c.modelPath == DefaultModelPath
  {
    match loaded
    case Some(cfg) => cfg
    case None => DefaultConfig
  }

  /** Display names of the language models, in the order the catalogue lists them. */
  const ModelNames: seq<string> := ["English (US)", "Russian", "Spanish"]

  /** Display name to model directory. */
  const ModelPaths: map<string, string> := map[
    "English (US)" := "./models/vosk-model-small-en-us-0.15",
    "Russian" := "./models/vosk-model-small-ru-0.22",
    "Spanish" := "./models/vosk-model-small-es-0.42"]

  /** The names a caller may pass as a model name: exactly the catalogue's keys, each once. */
  function AvailableModels(): (names: seq<string>)
    ensures forall n :: n in names <==> n in ModelPaths
    ensures forall i, j :: 0 <= i < j < |names| ==> names[i] != names[j]
  {
    ModelNames
  }

  /** The model directory a start call switches to, if any. A missing or empty name, a name
      the catalogue does not hold, or an empty path selects nothing and leaves the current
      model in place. */
  function SelectModel(modelName: Option<string>, catalog: map<string, string>): (path: Option<string>)
    ensures path.Some? <==> modelName.Some? && modelName.value != "" && modelName.value in catalog
                            && catalog[modelName.value] != ""
    ensures path.Some? ==> path.value == catalog[modelName.value] && path.value != ""
  {
    match modelName
    case None => None
    case Some(name) =>
      if name == "" || name !in catalog || catalog[name] == "" then None else Some(catalog[name])
  }

  /** The device a start call opens: the requested index when one is given (0 included),
      otherwise the configured one. */
  function ResolveDevice(requested: Option<int>, config: Config): (device: int)
    ensures requested.None? ==> device == config.deviceIndex
    ensures requested.Some? ==> device == requested.value
  {
    requested.GetOr(config.deviceIndex)
  }

  /** Every catalogue name selects its own directory; a name outside the catalogue selects nothing. */
  lemma CatalogSelection(name: string)
    ensures name in ModelNames ==> SelectModel(Some(name), ModelPaths) == Some(ModelPaths[name])
    ensures name !in ModelNames ==> SelectModel(Some(name), ModelPaths) == None
  {
  }
}
