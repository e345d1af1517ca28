/** The library configuration (src/core/config.py): the defaults of
    `ToolBridgeConfig`, the path fallback of `ConfigManager.load_config`,
    and `get_provider_config`.

    The file system is a map from the paths that exist to what opening and
    reading them gives; JSON decoding and the validation of the decoded
    mapping into a configuration are parameters. */
module Config {

  import opened Common

  datatype ToolBridgeConfig = ToolBridgeConfig(
    defaultProvider: Option<string>,
    providerConfigs: Dict<Dict<Value>>,
    logLevel: string,
    cacheDir: Option<string>)

  /** `ToolBridgeConfig()`: no default provider, no provider configurations,
      log level "INFO" and no cache directory. */
  function DefaultConfig(): (c: ToolBridgeConfig)
    ensures c.defaultProvider == None && c.providerConfigs == [] && c.logLevel == "INFO" && c.cacheDir == None
  {
    ToolBridgeConfig(None, [], "INFO", None)
  }

  /** What opening and reading an existing path gives: its text, or the
      `IOError` (`OSError`) raised, a directory's included. */
  datatype FileState = Readable(text: string) | Unreadable(error: Exc)

  /** The file system and the two conversions a file goes through: JSON
      decoding (None for a `JSONDecodeError`) and the construction of a
      configuration from the decoded mapping, which may raise a validation
      error. */
  datatype Sources = Sources(
    files: map<string, FileState>,
    decode: string -> Option<Value>,
    validate: Dict<Value> -> Result<ToolBridgeConfig>)

  /** `Path(dir) / name`. */
  function JoinPath(dir: string, name: string): string {
    if dir != "" && dir[|dir| - 1] == '/' then dir + name else dir + "/" + name
  }

  /** `DEFAULT_CONFIG_PATHS`, fixed when the class is defined: the working
      directory's file, the one under the home directory, and the value of
      `LLM_TOOLBRIDGE_CONFIG` (empty when unset). */
  function DefaultPaths(home: string, envPath: Option<string>): (paths: seq<string>)
    ensures |paths| == 3
    ensures paths[0] == "./llm_toolbridge_config.json"
    ensures paths[2] == if envPath.Some? then envPath.value else ""
  {
    ["./llm_toolbridge_config.json", JoinPath(JoinPath(home, ".llm_toolbridge"), "config.json"),
     if envPath.Some? then envPath.value else ""]
  }

  /** The paths `load_config` tries: the given one alone when it is a
      non-empty string, the default list otherwise. */
  function PathsToTry(given: Option<string>, defaults: seq<string>): (paths: seq<string>)
    ensures given.Some? && given.value != "" ==> paths == [given.value]
    ensures given.None? || given.value == "" ==> paths == defaults
  {
    if given.Some? && given.value != "" then [given.value] else defaults
  }

  function NotMappingMessage(typeName: string): string {
    "ToolBridgeConfig() argument after ** must be a mapping, not " + typeName
  }

  /** What trying one path gives: None when the search moves on (an empty
      entry, a path that does not exist, an `IOError`, a `JSONDecodeError`),
      otherwise the configuration built from the file or the error that
      building it raised, which ends the search. */
  function TryPath(path: string, src: Sources): (r: Option<Result<ToolBridgeConfig>>)
    ensures path == "" || path !in src.files ==> r.None?
    ensures r.Some? <==>
      (path != "" && path in src.files && src.files[path].Readable? && src.decode(src.files[path].text).Some?)
  {
    if path == "" || path !in src.files then None
    else
      match src.files[path]
      case Unreadable(_) => None
      case Readable(text) =>
        match src.decode(text)
        case None => None
        case Some(data) =>
          if data.VDict? then Some(src.validate(data.entries))
          else Some(Err(Exc(TypeError, NotMappingMessage(TypeName(data)))))
  }

  /** The search: the first path that does not fall through decides, and
      the default configuration comes back when all of them do. */
  function LoadFrom(paths: seq<string>, src: Sources): Result<ToolBridgeConfig>
    decreases |paths|
  {
    if paths == [] then Ok(DefaultConfig())
    else
      var attempt := TryPath(paths[0], src);
      if attempt.Some? then attempt.value else LoadFrom(paths[1..], src)
  }

  lemma LoadFromSkip(paths: seq<string>, src: Sources)
    requires paths != [] && TryPath(paths[0], src).None?
    ensures LoadFrom(paths, src) == LoadFrom(paths[1..], src)
  {
  }

  /** A path that does not fall through, after only paths that do, decides
      the result. */
  lemma {:induction false} LoadFromFirst(paths: seq<string>, src: Sources, j: nat)
    requires j < |paths| && TryPath(paths[j], src).Some?
    requires forall i | 0 <= i < j :: TryPath(paths[i], src).None?
    ensures LoadFrom(paths, src) == TryPath(paths[j], src).value
    decreases j
  {
    if j > 0 {
      LoadFromSkip(paths, src);
      var rest := paths[1..];
      forall i | 0 <= i < j - 1
        ensures TryPath(rest[i], src).None?
      {
        assert rest[i] == paths[i + 1];
      }
      assert rest[j - 1] == paths[j];
      LoadFromFirst(rest, src, j - 1);
    }
  }

  /** When every path falls through, the default configuration is
      returned. */
  lemma {:induction false} LoadFromDefault(paths: seq<string>, src: Sources)
    requires forall i | 0 <= i < |paths| :: TryPath(paths[i], src).None?
    ensures LoadFrom(paths, src) == Ok(DefaultConfig())
    decreases |paths|
  {
    if paths != [] {
      LoadFromSkip(paths, src);
      var rest := paths[1..];
      forall i | 0 <= i < |rest|
        ensures TryPath(rest[i], src).None?
      {
        assert rest[i] == paths[i + 1];
      }
      LoadFromDefault(rest, src);
    }
  }

  /** With an explicit non-empty path only that file is consulted: the
      default locations play no part. */
  lemma ExplicitPathOnly(path: string, defaults: seq<string>, src: Sources)
    requires path != ""
    ensures var r := LoadFrom(PathsToTry(Some(path), defaults), src);
      && (TryPath(path, src).Some? ==> r == TryPath(path, src).value)
      && (TryPath(path, src).None? ==> r == Ok(DefaultConfig()))
  {
    if TryPath(path, src).Some? {
      LoadFromFirst([path], src, 0);
    } else {
      LoadFromDefault([path], src);
    }
  }

  /** `ConfigManager.load_config(config_path)`: tries each path in turn,
      skipping empty entries and missing files, moving on after an I/O or
      JSON decoding error, and returning the first configuration built. */
  method LoadConfig(given: Option<string>, defaults: seq<string>, src: Sources) returns (r: Result<ToolBridgeConfig>)
    ensures r == LoadFrom(PathsToTry(given, defaults), src)
  {
    var paths := PathsToTry(given, defaults);
    for i := 0 to |paths|
      invariant LoadFrom(paths, src) == LoadFrom(paths[i..], src)
    {
      assert paths[i..][1..] == paths[i + 1..];
      var path := paths[i];
      if path == "" || path !in src.files {
        continue;
      }
      var file := src.files[path];
      if file.Unreadable? {
        continue;
      }
      var data := src.decode(file.text);
      if data.None? {
        continue;
      }
      if !data.value.VDict? {
        return Err(Exc(TypeError, NotMappingMessage(TypeName(data.value))));
      }
      return src.validate(data.value.entries);
    }
    r := Ok(DefaultConfig());
  }

  function NoProviderConfigMessage(name: string): string {
    "No configuration found for provider '" + name + "'"
  }

  /** The named provider's entry of a configuration; `KeyError` when it has
      none. */
  function ProviderEntry(name: string, config: ToolBridgeConfig): (r: Result<Dict<Value>>)
    ensures r.Ok? <==> HasKey(config.providerConfigs, name)
    ensures r.Ok? ==> Lookup(config.providerConfigs, name) == Some(r.value)
    ensures r.Err? ==> r.error == Exc(KeyError, NoProviderConfigMessage(name))
  {
    match Lookup(config.providerConfigs, name)
    case Some(entry) => Ok(entry)
    case None => Err(Exc(KeyError, NoProviderConfigMessage(name)))
  }

  /** `ConfigManager.get_provider_config(name, config)`: the entry of the
      given configuration, or of the one `load_config()` finds in the
      default locations when none is given, whose loading error passes
      through. */
  function GetProviderConfig(name: string, config: Option<ToolBridgeConfig>, defaults: seq<string>, src: Sources): (r: Result<Dict<Value>>)
    ensures config.Some? ==> r == ProviderEntry(name, config.value)
    ensures config.None? ==>
      var loaded := LoadFrom(defaults, src);
      && (loaded.Err? ==> r == Err(loaded.error))
      && (loaded.Ok? ==> r == ProviderEntry(name, loaded.value))
  {
    var c := if config.Some? then Ok(config.value) else LoadFrom(PathsToTry(None, defaults), src);
    if c.Err? then Err(c.error) else ProviderEntry(name, c.value)
  }

  /** With no configuration given and no loadable file, every provider is
      unknown: the default configuration has no entries. */
  lemma NoFileNoProvider(name: string, defaults: seq<string>, src: Sources)
    requires forall i | 0 <= i < |defaults| :: TryPath(defaults[i], src).None?
    ensures GetProviderConfig(name, None, defaults, src) == Err(Exc(KeyError, NoProviderConfigMessage(name)))
  {
    LoadFromDefault(defaults, src);
  }
}
