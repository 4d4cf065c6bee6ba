/**
 * Where the client's API key and base URL come from. The process environment
 * and the key file are inputs; viper's store is the class `Registry`, whose
 * three layers give a key's value: a value set in this process, else the
 * value read from the config file, else a default.
 */
module Config {
  import opened Wrappers
  import opened Text
  import opened Errors

  const DefaultBaseURL := "https://api.ellieplanner.com"

  const ApiKeyKey := "api_key"
  const BaseUrlKey := "base_url"

  /** The three environment variables the client reads; "" stands for unset, as `os.Getenv` reports it. */
  datatype Env = Env(apiKey: string, apiKeyFile: string, baseURL: string)

  /** `os.ReadFile` of a path: the file's text, or the reason it could not be read. */
  type FileSystem = string -> Result<string, string>

  /** A snapshot of viper's store. */
  datatype Settings = Settings(overrides: map<string, string>, file: map<string, string>,
                               defaults: map<string, string>)

  /** `viper.GetString`: the highest layer holding the key wins; "" when none does. */
  function Lookup(s: Settings, key: string): (r: string)
    ensures key in s.overrides ==> r == s.overrides[key]
    ensures key !in s.overrides && key in s.file ==> r == s.file[key]
    ensures key !in s.overrides && key !in s.file && key in s.defaults ==> r == s.defaults[key]
    ensures key !in s.overrides && key !in s.file && key !in s.defaults ==> r == ""
  {
    if key in s.overrides then s.overrides[key]
    else if key in s.file then s.file[key]
    else if key in s.defaults then s.defaults[key]
    else ""
  }

  /** Every key some layer holds. */
  function Known(s: Settings): set<string> {
    s.overrides.Keys + s.file.Keys + s.defaults.Keys
  }

  /** `viper.AllSettings`: each known key with the value a lookup gives it. */
  function AllSettings(s: Settings): (m: map<string, string>)
    ensures m.Keys == Known(s)
    ensures forall k :: k in m ==> m[k] == Lookup(s, k)
  {
    map k | k in Known(s) :: Lookup(s, k)
  }

  /** `config.GetAPIKey`. */
  function GetAPIKey(env: Env, fs: FileSystem, s: Settings): (r: Result<string, Error>)
    ensures r.Failure? <==>
      env.apiKey == ""
      && (if env.apiKeyFile != "" then fs(env.apiKeyFile).Failure? else Lookup(s, ApiKeyKey) == "")
    ensures r.Failure? && env.apiKeyFile == "" ==> r.error == KeyNotConfigured
    ensures r.Failure? && env.apiKeyFile != "" ==> r.error == KeyFileUnreadable(fs(env.apiKeyFile).error)
  {
    if env.apiKey != "" then Success(TrimSpace(env.apiKey))
    else if env.apiKeyFile != "" then
      match fs(env.apiKeyFile)
      case Success(content) => Success(TrimSpace(content))
      case Failure(cause) => Failure(KeyFileUnreadable(cause))
    else if Lookup(s, ApiKeyKey) != "" then Success(Lookup(s, ApiKeyKey))
    else Failure(KeyNotConfigured)
  }

  /** A set `ELLIE_API_KEY` decides the key, trimmed, whatever the key file and the store hold. */
  lemma EnvironmentKeyWins(env: Env, fs1: FileSystem, s1: Settings, fs2: FileSystem, s2: Settings)
    requires env.apiKey != ""
    ensures GetAPIKey(env, fs1, s1) == GetAPIKey(env, fs2, s2) == Success(TrimSpace(env.apiKey))
  {
  }

  /** A key of only white space is the empty key, not an error and not a fall-through. */
  lemma BlankEnvironmentKey(env: Env, fs: FileSystem, s: Settings)
    requires env.apiKey != "" && AllSpace(env.apiKey)
    ensures GetAPIKey(env, fs, s) == Success("")
  {
  }

  /** With the key file named, its trimmed text is the key: a trailing newline is dropped. */
  lemma KeyFileTrimmed(env: Env, fs: FileSystem, s: Settings, key: string)
    requires env.apiKey == "" && env.apiKeyFile != ""
    requires fs(env.apiKeyFile) == Success(key + "\n")
    requires key == TrimSpace(key)
    ensures GetAPIKey(env, fs, s) == Success(key)
  {
    TrimSpaceDropsTrailingSpace(key, '\n');
  }

  /** An unreadable key file is an error, and the store is not consulted. */
  lemma KeyFileFailureStops(env: Env, fs: FileSystem, s1: Settings, s2: Settings)
    requires env.apiKey == "" && env.apiKeyFile != "" && fs(env.apiKeyFile).Failure?
    ensures GetAPIKey(env, fs, s1) == GetAPIKey(env, fs, s2)
            == Failure(KeyFileUnreadable(fs(env.apiKeyFile).error))
  {
  }

  /** Without either variable, a non-empty stored key is returned as stored, untrimmed. */
  lemma StoredKeyUntrimmed(env: Env, fs: FileSystem, s: Settings)
    requires env.apiKey == "" && env.apiKeyFile == ""
    requires Lookup(s, ApiKeyKey) != ""
    ensures GetAPIKey(env, fs, s) == Success(Lookup(s, ApiKeyKey))
  {
  }

  /** A key succeeds only with what one of the three sources provides. */
  lemma KeyComesFromASource(env: Env, fs: FileSystem, s: Settings)
    requires GetAPIKey(env, fs, s).Success?
    ensures var k := GetAPIKey(env, fs, s).value;
      (env.apiKey != "" && k == TrimSpace(env.apiKey))
      || (env.apiKey == "" && env.apiKeyFile != "" && k == TrimSpace(fs(env.apiKeyFile).value))
      || (env.apiKey == "" && env.apiKeyFile == "" && k == Lookup(s, ApiKeyKey) && k != "")
  {
  }

  /** `config.GetBaseURL`. */
  function GetBaseURL(env: Env, s: Settings): (r: string)
    ensures env.baseURL != "" ==> r == env.baseURL
    ensures env.baseURL == "" ==> r == Lookup(s, BaseUrlKey)
  {
    if env.baseURL != "" then env.baseURL else Lookup(s, BaseUrlKey)
  }

  /** After `Init` with nothing set and no `base_url` in the file, the default base URL is used. */
  lemma DefaultBaseURLApplies(env: Env, s: Settings)
    requires env.baseURL == ""
    requires BaseUrlKey !in s.overrides && BaseUrlKey !in s.file
    requires BaseUrlKey in s.defaults && s.defaults[BaseUrlKey] == DefaultBaseURL
    ensures GetBaseURL(env, s) == DefaultBaseURL
  {
  }

  /** `config.Config`. */
  datatype Configuration = Configuration(apiKey: string, baseURL: string)

  /** `config.GetConfig`: the resolved key, or "" when resolving it fails, and the base URL. */
  function GetConfig(env: Env, fs: FileSystem, s: Settings): (c: Configuration)
    ensures GetAPIKey(env, fs, s).Success? ==> c.apiKey == GetAPIKey(env, fs, s).value
    ensures GetAPIKey(env, fs, s).Failure? ==> c.apiKey == ""
    ensures c.baseURL == GetBaseURL(env, s)
  {
    var key := GetAPIKey(env, fs, s);
    Configuration(if key.Success? then key.value else "", GetBaseURL(env, s))
  }

  /** Setting a key in this process changes what that key reads as, and nothing else. */
  lemma OverrideChangesOnlyItsKey(s: Settings, key: string, value: string)
    ensures Lookup(s.(overrides := s.overrides[key := value]), key) == value
    ensures forall k :: k != key ==> Lookup(s.(overrides := s.overrides[key := value]), k) == Lookup(s, k)
  {
  }

  /** A store whose file layer is what `AllSettings` wrote reads every known key as before. */
  lemma SavedSettingsReload(s: Settings, defaults: map<string, string>)
    ensures forall k :: k in Known(s) ==> Lookup(Settings(map[], AllSettings(s), defaults), k) == Lookup(s, k)
  {
  }

  /** What `viper.ReadInConfig` finds. */
  datatype ConfigFile = Missing | Parsed(values: map<string, string>) | Unreadable(cause: string)

  /** viper's process-wide store, and the file content it last wrote. */
  class Registry {
    var overrides: map<string, string>
    var file: map<string, string>
    var defaults: map<string, string>
    var saved: Option<map<string, string>>

    function Snapshot(): (s: Settings)
      reads this
      ensures s.overrides == overrides && s.file == file && s.defaults == defaults
    {
      Settings(overrides, file, defaults)
    }

    constructor()
      ensures overrides == map[] && file == map[] && defaults == map[] && saved == None
    {
      overrides, file, defaults, saved := map[], map[], map[], None;
    }

    /**
     * `config.Init`: finding the user's config directory and creating it can
     * fail before anything is set; then `base_url` gets its default and the
     * config file, if one is found, is read.
     */
    method Init(userDir: Result<string, string>, mkdirFailure: Option<string>, found: ConfigFile)
      returns (err: Option<Error>)
      modifies this
      ensures userDir.Failure? ==> err == Some(NoConfigDir(userDir.error)) && unchanged(this)
      ensures userDir.Success? && mkdirFailure.Some? ==>
        err == Some(ConfigDirNotCreated(mkdirFailure.value)) && unchanged(this)
      ensures userDir.Success? && mkdirFailure.None? ==>
        defaults == old(defaults)[BaseUrlKey := DefaultBaseURL]
        && overrides == old(overrides) && saved == old(saved)
        && (found.Missing? ==> err == None && file == old(file))
        && (found.Parsed? ==> err == None && file == found.values)
        && (found.Unreadable? ==> err == Some(ConfigUnreadable(found.cause)) && file == old(file))
    {
      if userDir.Failure? {
        return Some(NoConfigDir(userDir.error));
      }
      if mkdirFailure.Some? {
        return Some(ConfigDirNotCreated(mkdirFailure.value));
      }
      defaults := defaults[BaseUrlKey := DefaultBaseURL];
      match found {
        case Missing => err := None;
        case Parsed(values) =>
          file := values;
          err := None;
        case Unreadable(cause) => err := Some(ConfigUnreadable(cause));
      }
    }

    /** `viper.Set` then `viper.WriteConfigAs`, shared by the two setters. */
    method Store(key: string, value: string, userDir: Result<string, string>, writeFailure: Option<string>)
      returns (err: Option<Error>)
      modifies this
      ensures userDir.Failure? ==> err == Some(NoConfigDir(userDir.error)) && unchanged(this)
      ensures userDir.Success? ==>
        overrides == old(overrides)[key := value] && file == old(file) && defaults == old(defaults)
      ensures userDir.Success? && writeFailure.Some? ==>
        err == Some(ConfigNotWritten(writeFailure.value)) && saved == old(saved)
      ensures userDir.Success? && writeFailure.None? ==>
        err == None && saved == Some(AllSettings(Snapshot()))
    {
      if userDir.Failure? {
        return Some(NoConfigDir(userDir.error));
      }
      overrides := overrides[key := value];
      if writeFailure.Some? {
        return Some(ConfigNotWritten(writeFailure.value));
      }
      saved := Some(AllSettings(Snapshot()));
      err := None;
    }

    /** `config.SetAPIKey`. */
    method SetAPIKey(apiKey: string, userDir: Result<string, string>, writeFailure: Option<string>)
      returns (err: Option<Error>)
      modifies this
      ensures userDir.Failure? ==> err == Some(NoConfigDir(userDir.error)) && unchanged(this)
      ensures userDir.Success? ==>
        overrides == old(overrides)[ApiKeyKey := apiKey] && file == old(file) && defaults == old(defaults)
      ensures userDir.Success? && writeFailure.Some? ==>
        err == Some(ConfigNotWritten(writeFailure.value)) && saved == old(saved)
      ensures userDir.Success? && writeFailure.None? ==>
        err == None && saved == Some(AllSettings(Snapshot()))
    {
      err := Store(ApiKeyKey, apiKey, userDir, writeFailure);
    }

    /** `config.SetBaseURL`. */
    method SetBaseURL(baseURL: string, userDir: Result<string, string>, writeFailure: Option<string>)
      returns (err: Option<Error>)
      modifies this
      ensures userDir.Failure? ==> err == Some(NoConfigDir(userDir.error)) && unchanged(this)
      ensures userDir.Success? ==>
        overrides == old(overrides)[BaseUrlKey := baseURL] && file == old(file) && defaults == old(defaults)
      ensures userDir.Success? && writeFailure.Some? ==>
        err == Some(ConfigNotWritten(writeFailure.value)) && saved == old(saved)
      ensures userDir.Success? && writeFailure.None? ==>
        err == None && saved == Some(AllSettings(Snapshot()))
    {
      err := Store(BaseUrlKey, baseURL, userDir, writeFailure);
    }
  }

  /** A key stored by `SetAPIKey` is the key the client resolves when neither variable is set. */
  lemma StoredKeyResolves(env: Env, fs: FileSystem, s: Settings, apiKey: string)
    requires env.apiKey == "" && env.apiKeyFile == "" && apiKey != ""
    ensures GetAPIKey(env, fs, s.(overrides := s.overrides[ApiKeyKey := apiKey])) == Success(apiKey)
  {
  }
}
