/** Configuration read from the environment: `load_config` over an environment
    map with the `.env` file's variables beneath it, and `validate_config` over
    the resulting dictionary. */
module Config {
  import opened Seqs
  import opened Strings

  /** The values the configuration dictionary holds. */
  datatype Value = NoneValue | Str(text: string) | Int(number: int) | Bool(flag: bool)

  /** Python truthiness of a dictionary value. */
  predicate Truthy(v: Value)
  {
    match v
    case NoneValue => false
    case Str(text) => text != ""
    case Int(number) => number != 0
    case Bool(flag) => flag
  }

  /** The configuration `load_config` builds, one field per dictionary key. */
  datatype Settings = Settings(
    openaiApiKey: Option<string>,
    openaiModel: string,
    executionTimeout: int,
    enableDocker: bool,
    deployProvider: string,
    deployPath: string,
    enableSandboxing: bool,
    maxExecutionTime: int,
    logLevel: string,
    logFile: string)

  /** The environment `load_config` reads: `load_dotenv` adds the `.env`
      variables without overriding those already set. */
  function Environment(environ: map<string, string>, dotenv: map<string, string>): map<string, string>
  {
    dotenv + environ
  }

  /** `os.getenv(key, default)`. */
  function GetEnv(env: map<string, string>, key: string, default: string): string
  {
    if key in env then env[key] else default
  }

  /** `os.getenv(key, "true").lower() == "true"`. */
  predicate Flag(env: map<string, string>, key: string)
  {
    Lower(GetEnv(env, key, "true")) == "true"
  }

  /** The message of the `ValueError` `int(text)` raises. */
  function IntError(text: string): string
  {
    "invalid literal for int() with base 10: '" + text + "'"
  }

  /** `load_config`: the dictionary entries in their order of evaluation; the
      first integer that does not parse raises. */
  function LoadConfig(environ: map<string, string>, dotenv: map<string, string>): Result<Settings, string>
  {
    var env := Environment(environ, dotenv);
    var timeoutText := GetEnv(env, "EXECUTION_TIMEOUT", "300");
    var maxTimeText := GetEnv(env, "MAX_EXECUTION_TIME", "600");
    match ParseInt(timeoutText)
    case None => Err(IntError(timeoutText))
    case Some(timeout) =>
      match ParseInt(maxTimeText)
      case None => Err(IntError(maxTimeText))
      case Some(maxTime) =>
        Ok(Settings(
          if "OPENAI_API_KEY" in env then Some(env["OPENAI_API_KEY"]) else None,
          GetEnv(env, "OPENAI_MODEL", "gpt-4"),
          timeout,
          Flag(env, "ENABLE_DOCKER"),
          GetEnv(env, "DEPLOY_PROVIDER", "local"),
          GetEnv(env, "DEPLOY_PATH", "/tmp/gptbuilder_deployments"),
          Flag(env, "ENABLE_SANDBOXING"),
          maxTime,
          GetEnv(env, "LOG_LEVEL", "INFO"),
          GetEnv(env, "LOG_FILE", "gptbuilder.log")))
  }

  /** The dictionary `load_config` returns. */
  function ToDict(s: Settings): (config: map<string, Value>)
    ensures "openai_api_key" in config
    ensures config["openai_api_key"] == if s.openaiApiKey.Some? then Str(s.openaiApiKey.value) else NoneValue
  {
    map[
      "openai_api_key" := if s.openaiApiKey.Some? then Str(s.openaiApiKey.value) else NoneValue,
      "openai_model" := Str(s.openaiModel),
      "execution_timeout" := Int(s.executionTimeout),
      "enable_docker" := Bool(s.enableDocker),
      "deploy_provider" := Str(s.deployProvider),
      "deploy_path" := Str(s.deployPath),
      "enable_sandboxing" := Bool(s.enableSandboxing),
      "max_execution_time" := Int(s.maxExecutionTime),
      "log_level" := Str(s.logLevel),
      "log_file" := Str(s.logFile)]
  }

  // ---------------------------------------------------------------- validation

  /** `config.get(key)`. */
  function Get(config: map<string, Value>, key: string): Value
  {
    if key in config then config[key] else NoneValue
  }

  const RequiredKeys: seq<string> := ["openai_api_key"]

  /** The search of `validate_config`: false at the first key whose value is falsy. */
  function AllSet(config: map<string, Value>, keys: seq<string>): (ok: bool)
    ensures ok <==> forall i :: 0 <= i < |keys| ==> Truthy(Get(config, keys[i]))
    decreases |keys|
  {
    if |keys| == 0 then true
    else if !Truthy(Get(config, keys[0])) then false
    else AllSet(config, keys[1..])
  }

  /** `validate_config`: the configuration is valid exactly when the API key is
      present and truthy. */
  function ValidateConfig(config: map<string, Value>): (valid: bool)
    ensures valid <==> "openai_api_key" in config && Truthy(config["openai_api_key"])
  {
    AllSet(config, RequiredKeys)
  }

  // ---------------------------------------------------------------- properties

  /** A loaded configuration is valid exactly when `OPENAI_API_KEY` is set and not empty. */
  lemma LoadedValidIffKey(environ: map<string, string>, dotenv: map<string, string>)
    requires LoadConfig(environ, dotenv).Ok?
    ensures var env := Environment(environ, dotenv);
            ValidateConfig(ToDict(LoadConfig(environ, dotenv).value))
            <==> "OPENAI_API_KEY" in env && env["OPENAI_API_KEY"] != ""
  {
  }

  /** A variable of the process environment wins over the same variable in `.env`. */
  lemma ProcessEnvironmentWins(environ: map<string, string>, dotenv: map<string, string>, key: string, default: string)
    ensures key in environ ==> GetEnv(Environment(environ, dotenv), key, default) == environ[key]
    ensures key !in environ && key in dotenv ==> GetEnv(Environment(environ, dotenv), key, default) == dotenv[key]
    ensures key !in environ && key !in dotenv ==> GetEnv(Environment(environ, dotenv), key, default) == default
  {
  }

  /** Text without capitals is its own lower-case form. */
  lemma LowerWithoutCapitals(s: string)
    requires forall i :: 0 <= i < |s| ==> !('A' <= s[i] <= 'Z')
    ensures Lower(s) == s
  {
  }

  /** A flag is on exactly when it is unset or its value reads "true" ignoring case. */
  lemma FlagMeaning(env: map<string, string>, key: string)
    ensures Flag(env, key) <==> key !in env || Lower(env[key]) == "true"
  {
    LowerWithoutCapitals("true");
  }

  /** "TRUE" and "True" turn a flag on; "1", "yes" and "" turn it off. */
  lemma FlagExamples(key: string)
    ensures Flag(map[key := "TRUE"], key) && Flag(map[key := "True"], key)
    ensures !Flag(map[key := "1"], key) && !Flag(map[key := "yes"], key) && !Flag(map[key := ""], key)
  {
    assert Lower("TRUE") == "true";
    assert Lower("True") == "true";
    assert Lower("yes") != "true" by {
      assert |Lower("yes")| == 3;
    }
  }

  /** The settings with nothing set: no API key and the documented defaults. */
  const DefaultSettings := Settings(None, "gpt-4", 300, true, "local", "/tmp/gptbuilder_deployments",
                                    true, 600, "INFO", "gptbuilder.log")

  lemma ParseDefault(text: string, n: nat)
    requires text == NatToString(n)
    ensures ParseInt(text) == Some(n)
  {
    ParseIntRoundTrip(n);
  }

  /** The default texts of the two integer settings read as 300 and 600. */
  lemma DefaultIntegers()
    ensures ParseInt("300") == Some(300) && ParseInt("600") == Some(600)
  {
    assert NatToString(300) == "300" by {
      assert NatToString(30) == "30";
    }
    assert NatToString(600) == "600" by {
      assert NatToString(60) == "60";
    }
    ParseDefault("300", 300);
    ParseDefault("600", 600);
  }

  /** An empty environment loads the defaults. */
  lemma LoadDefaults()
    ensures LoadConfig(map[], map[]) == Ok(DefaultSettings)
  {
    DefaultIntegers();
    FlagMeaning(map[], "ENABLE_DOCKER");
    FlagMeaning(map[], "ENABLE_SANDBOXING");
  }

  /** In every environment, a text setting whose variable is unset takes its default. */
  lemma LoadUnsetDefaults(environ: map<string, string>, dotenv: map<string, string>)
    requires LoadConfig(environ, dotenv).Ok?
    ensures var env, s := Environment(environ, dotenv), LoadConfig(environ, dotenv).value;
      && ("OPENAI_API_KEY" !in env ==> s.openaiApiKey == None)
      && ("OPENAI_MODEL" !in env ==> s.openaiModel == DefaultSettings.openaiModel)
      && ("DEPLOY_PROVIDER" !in env ==> s.deployProvider == DefaultSettings.deployProvider)
      && ("DEPLOY_PATH" !in env ==> s.deployPath == DefaultSettings.deployPath)
      && ("LOG_LEVEL" !in env ==> s.logLevel == DefaultSettings.logLevel)
      && ("LOG_FILE" !in env ==> s.logFile == DefaultSettings.logFile)
  {
  }

  /** In every environment, an unset integer variable takes its default, and
      with both unset the load cannot fail. */
  lemma LoadUnsetIntegers(environ: map<string, string>, dotenv: map<string, string>)
    ensures var env := Environment(environ, dotenv);
      "EXECUTION_TIMEOUT" !in env && "MAX_EXECUTION_TIME" !in env ==> LoadConfig(environ, dotenv).Ok?
    ensures var env := Environment(environ, dotenv);
      LoadConfig(environ, dotenv).Ok? ==>
      && ("EXECUTION_TIMEOUT" !in env ==> LoadConfig(environ, dotenv).value.executionTimeout == 300)
      && ("MAX_EXECUTION_TIME" !in env ==> LoadConfig(environ, dotenv).value.maxExecutionTime == 600)
  {
    var env := Environment(environ, dotenv);
    var timeoutText := GetEnv(env, "EXECUTION_TIMEOUT", "300");
    var maxTimeText := GetEnv(env, "MAX_EXECUTION_TIME", "600");
    DefaultIntegers();
    assert "EXECUTION_TIMEOUT" !in env ==> timeoutText == "300";
    assert "MAX_EXECUTION_TIME" !in env ==> maxTimeText == "600";
    LoadFailure(environ, dotenv);
    if LoadConfig(environ, dotenv).Ok? {
      LoadedIntegers(environ, dotenv);
    }
  }

  /** The two integer settings are what `int()` reads from their texts. */
  lemma LoadedIntegers(environ: map<string, string>, dotenv: map<string, string>)
    requires LoadConfig(environ, dotenv).Ok?
    ensures var env, s := Environment(environ, dotenv), LoadConfig(environ, dotenv).value;
      && ParseInt(GetEnv(env, "EXECUTION_TIMEOUT", "300")) == Some(s.executionTimeout)
      && ParseInt(GetEnv(env, "MAX_EXECUTION_TIME", "600")) == Some(s.maxExecutionTime)
  {
  }

  /** In every environment, each loaded flag is on exactly when its variable is
      unset or reads "true" ignoring case. */
  lemma LoadFlags(environ: map<string, string>, dotenv: map<string, string>)
    requires LoadConfig(environ, dotenv).Ok?
    ensures var env, s := Environment(environ, dotenv), LoadConfig(environ, dotenv).value;
      && (s.enableDocker <==> "ENABLE_DOCKER" !in env || Lower(env["ENABLE_DOCKER"]) == "true")
      && (s.enableSandboxing <==> "ENABLE_SANDBOXING" !in env || Lower(env["ENABLE_SANDBOXING"]) == "true")
  {
    var env := Environment(environ, dotenv);
    FlagMeaning(env, "ENABLE_DOCKER");
    FlagMeaning(env, "ENABLE_SANDBOXING");
  }

  /** A set string variable, the API key among them, is passed through unchanged, and a set integer
      variable is its parsed value. */
  lemma LoadPassesThrough(environ: map<string, string>, dotenv: map<string, string>)
    requires LoadConfig(environ, dotenv).Ok?
    ensures var env, s := Environment(environ, dotenv), LoadConfig(environ, dotenv).value;
      && ("OPENAI_API_KEY" in env ==> s.openaiApiKey == Some(env["OPENAI_API_KEY"]))
      && ("OPENAI_MODEL" in env ==> s.openaiModel == env["OPENAI_MODEL"])
      && ("DEPLOY_PROVIDER" in env ==> s.deployProvider == env["DEPLOY_PROVIDER"])
      && ("DEPLOY_PATH" in env ==> s.deployPath == env["DEPLOY_PATH"])
      && ("LOG_LEVEL" in env ==> s.logLevel == env["LOG_LEVEL"])
      && ("LOG_FILE" in env ==> s.logFile == env["LOG_FILE"])
      && ("EXECUTION_TIMEOUT" in env ==> Some(s.executionTimeout) == ParseInt(env["EXECUTION_TIMEOUT"]))
      && ("MAX_EXECUTION_TIME" in env ==> Some(s.maxExecutionTime) == ParseInt(env["MAX_EXECUTION_TIME"]))
  {
  }

  /** Loading fails exactly when one of the two integers does not parse, and
      the message quotes the first one that fails. */
  lemma LoadFailure(environ: map<string, string>, dotenv: map<string, string>)
    ensures var env := Environment(environ, dotenv);
      var timeoutText := GetEnv(env, "EXECUTION_TIMEOUT", "300");
      var maxTimeText := GetEnv(env, "MAX_EXECUTION_TIME", "600");
      && (LoadConfig(environ, dotenv).Err? <==> ParseInt(timeoutText).None? || ParseInt(maxTimeText).None?)
      && (ParseInt(timeoutText).None? ==> LoadConfig(environ, dotenv) == Err(IntError(timeoutText)))
      && (ParseInt(timeoutText).Some? && ParseInt(maxTimeText).None? ==>
            LoadConfig(environ, dotenv) == Err(IntError(maxTimeText)))
  {
  }

  /** A timeout written as a word stops the load. */
  lemma WordTimeoutFails()
    ensures LoadConfig(map["EXECUTION_TIMEOUT" := "ten"], map[]) == Err(IntError("ten"))
  {
    var environ := map["EXECUTION_TIMEOUT" := "ten"];
    assert GetEnv(Environment(environ, map[]), "EXECUTION_TIMEOUT", "300") == "ten";
    NotANumber("ten");
    LoadFailure(environ, map[]);
  }

  lemma NotANumber(text: string)
    requires |text| > 0 && text[0] == 't' && !IsSpace(text[|text| - 1])
    ensures ParseInt(text) == None
  {
    StripUnpadded(text);
    assert Strip(text) == text;
    assert !IsDigit(text[0]);
    assert !AllDigits(text);
  }
}
