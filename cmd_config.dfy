/** The `config` commands: showing the key masked, and validating then storing a new key or base URL. */
module CmdConfig {
  import opened Wrappers
  import opened Text
  import opened Errors
  import opened Output
  import Config

  const Star: byte := 42

  function Stars(n: nat): (r: Bytes)
    ensures |r| == n && forall i :: 0 <= i < n ==> r[i] == Star
  {
    seq(n, _ => Star)
  }

  /** `maskAPIKey`, over the key's bytes as Go's `len` and slicing count them. */
  function MaskAPIKey(key: Bytes): (r: Bytes)
    ensures |r| == |key|
    ensures |key| <= 12 ==> forall i :: 0 <= i < |r| ==> r[i] == Star
    ensures |key| > 12 ==> r[..8] == key[..8]
    ensures |key| > 12 ==> r[|r| - 4..] == key[|key| - 4..]
    ensures |key| > 12 ==> forall i :: 8 <= i < |r| - 4 ==> r[i] == Star
  {
    if |key| <= 12 then Stars(|key|)
    else key[..8] + Stars(|key| - 12) + key[|key| - 4..]
  }

  /** The mask shows nothing but the length and, past twelve bytes, the first eight and last four. */
  lemma MaskRevealsOnlyEnds(k1: Bytes, k2: Bytes)
    requires |k1| == |k2|
    requires |k1| > 12 ==> k1[..8] == k2[..8] && k1[|k1| - 4..] == k2[|k2| - 4..]
    ensures MaskAPIKey(k1) == MaskAPIKey(k2)
  {
    var m1, m2 := MaskAPIKey(k1), MaskAPIKey(k2);
    forall i | 0 <= i < |m1|
      ensures m1[i] == m2[i]
    {
      if |k1| > 12 {
        if i < 8 {
          assert m1[i] == m1[..8][i] && m2[i] == m2[..8][i];
        } else if i >= |m1| - 4 {
          assert m1[i] == m1[|m1| - 4..][i - (|m1| - 4)] && m2[i] == m2[|m2| - 4..][i - (|m2| - 4)];
        }
      }
    }
  }

  const KeyLead := "  API Key:  "

  /** What `config show` prints for a configuration and a configuration directory. */
  function ShowLines(cfg: Config.Configuration, configDir: string): (r: seq<Line>)
    ensures |r| == 10
    ensures r[1] == Plain("  Base URL: " + cfg.baseURL)
    ensures r[2].Binary? <==> cfg.apiKey != ""
    ensures cfg.apiKey != "" ==> r[2].bytes == Ascii(KeyLead) + MaskAPIKey(Utf8(cfg.apiKey))
    ensures cfg.apiKey == "" ==> r[2] == Plain(KeyLead + "(not set)")
  {
    [Plain("Configuration:"),
     Plain("  Base URL: " + cfg.baseURL),
     if cfg.apiKey != "" then Binary(Ascii(KeyLead) + MaskAPIKey(Utf8(cfg.apiKey)))
     else Plain(KeyLead + "(not set)"),
     Plain(""),
     Plain("Config file: " + configDir + "/config.yaml"),
     Plain(""),
     Plain("API key priority:"),
     Plain("  1. " + KeyVariable + " environment variable"),
     Plain("  2. " + KeyFileVariable + " environment variable (path to file)"),
     Plain("  3. Config file")]
  }

  /** `config show`: a directory that cannot be found prints as "". */
  function ShowConfig(env: Config.Env, fs: Config.FileSystem, s: Config.Settings,
                      userDir: Result<string, string>): seq<Line>
  {
    ShowLines(Config.GetConfig(env, fs, s), if userDir.Success? then ConfigDir(userDir.value) else "")
  }

  /**
   * `config show` tells two set keys apart only by their byte length and, past twelve bytes,
   * their first eight and last four bytes.
   */
  lemma ShowHidesKey(c1: Config.Configuration, c2: Config.Configuration, configDir: string)
    requires c1.baseURL == c2.baseURL && c1.apiKey != "" && c2.apiKey != ""
    requires |Utf8(c1.apiKey)| == |Utf8(c2.apiKey)|
    requires |Utf8(c1.apiKey)| > 12 ==>
      Utf8(c1.apiKey)[..8] == Utf8(c2.apiKey)[..8]
      && Utf8(c1.apiKey)[|Utf8(c1.apiKey)| - 4..] == Utf8(c2.apiKey)[|Utf8(c2.apiKey)| - 4..]
    ensures ShowLines(c1, configDir) == ShowLines(c2, configDir)
  {
    MaskRevealsOnlyEnds(Utf8(c1.apiKey), Utf8(c2.apiKey));
  }

  /** The trim-then-reject-empty rule shared by `set-api-key` and `set-base-url`. */
  function CheckedArgument(arg: string, what: string): (r: Result<string, Error>)
    ensures r.Failure? <==> AllSpace(arg)
    ensures r.Failure? ==> r.error == EmptyArgument(what)
    ensures r.Success? ==> r.value == TrimSpace(arg) && r.value != []
    ensures r.Success? ==> !IsSpace(r.value[0]) && !IsSpace(r.value[|r.value| - 1])
  {
    var trimmed := TrimSpace(arg);
    if trimmed == "" then Failure(EmptyArgument(what)) else Success(trimmed)
  }

  /** What is stored passes the check again unchanged. */
  lemma CheckedArgumentStable(arg: string, what: string)
    requires CheckedArgument(arg, what).Success?
    ensures CheckedArgument(CheckedArgument(arg, what).value, what) == CheckedArgument(arg, what)
  {
    TrimSpaceIdempotent(arg);
  }

  /** `filepath.Join(os.UserConfigDir(), "ellie")`. */
  function ConfigDir(userDir: string): string {
    userDir + "/ellie"
  }

  /** `config set-api-key <key>`. */
  method SetApiKeyCommand(reg: Config.Registry, arg: string, userDir: Result<string, string>,
                          writeFailure: Option<string>)
    returns (out: seq<Line>, err: Option<Error>)
    modifies reg
    ensures AllSpace(arg) ==> err == Some(EmptyArgument("API key")) && out == [] && unchanged(reg)
    ensures !AllSpace(arg) && userDir.Failure? ==>
      err == Some(SaveFailed("API key", NoConfigDir(userDir.error))) && out == [] && unchanged(reg)
    ensures !AllSpace(arg) && userDir.Success? ==>
      reg.overrides == old(reg.overrides)[Config.ApiKeyKey := TrimSpace(arg)]
      && reg.file == old(reg.file) && reg.defaults == old(reg.defaults)
    ensures !AllSpace(arg) && userDir.Success? && writeFailure.Some? ==>
      err == Some(SaveFailed("API key", ConfigNotWritten(writeFailure.value))) && out == []
      && reg.saved == old(reg.saved)
    ensures !AllSpace(arg) && userDir.Success? && writeFailure.None? ==>
      err == None && reg.saved == Some(Config.AllSettings(reg.Snapshot()))
      && out == [Plain("API key saved to " + ConfigDir(userDir.value) + "/config.yaml")]
  {
    var checked := CheckedArgument(arg, "API key");
    if checked.Failure? {
      return [], Some(checked.error);
    }
    var saveErr := reg.SetAPIKey(checked.value, userDir, writeFailure);
    if saveErr.Some? {
      return [], Some(SaveFailed("API key", saveErr.value));
    }
    out := [Plain("API key saved to " + ConfigDir(userDir.value) + "/config.yaml")];
    err := None;
  }

  /** `config set-base-url <url>`. */
  method SetBaseUrlCommand(reg: Config.Registry, arg: string, userDir: Result<string, string>,
                           writeFailure: Option<string>)
    returns (out: seq<Line>, err: Option<Error>)
    modifies reg
    ensures AllSpace(arg) ==> err == Some(EmptyArgument("base URL")) && out == [] && unchanged(reg)
    ensures !AllSpace(arg) && userDir.Failure? ==>
      err == Some(SaveFailed("base URL", NoConfigDir(userDir.error))) && out == [] && unchanged(reg)
    ensures !AllSpace(arg) && userDir.Success? ==>
      reg.overrides == old(reg.overrides)[Config.BaseUrlKey := TrimSpace(arg)]
      && reg.file == old(reg.file) && reg.defaults == old(reg.defaults)
    ensures !AllSpace(arg) && userDir.Success? && writeFailure.Some? ==>
      err == Some(SaveFailed("base URL", ConfigNotWritten(writeFailure.value))) && out == []
      && reg.saved == old(reg.saved)
    ensures !AllSpace(arg) && userDir.Success? && writeFailure.None? ==>
      err == None && reg.saved == Some(Config.AllSettings(reg.Snapshot()))
      && out == [Plain("Base URL set to: " + TrimSpace(arg))]
  {
    var checked := CheckedArgument(arg, "base URL");
    if checked.Failure? {
      return [], Some(checked.error);
    }
    var saveErr := reg.SetBaseURL(checked.value, userDir, writeFailure);
    if saveErr.Some? {
      return [], Some(SaveFailed("base URL", saveErr.value));
    }
    out := [Plain("Base URL set to: " + checked.value)];
    err := None;
  }
}
