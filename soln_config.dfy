/** SolnAI's central configuration (SolnAI-agents/shared/config/config.py):
    the LLM settings with their provider validator and per-provider
    getters, the configuration read from the environment, and the
    process-wide instance `get_config` builds once. The environment is a
    map from variable names to values. */
module SolnConfig {
  import opened Base

  // ---------------------------------------------------------------------
  // LLMConfig
  // ---------------------------------------------------------------------

  predicate SupportedProvider(p: string)
  {
    p == "openai" || p == "anthropic" || p == "gemini"
  }

  /** `validate_provider`: a supported provider, in any letter case, is
      stored lower-cased; anything else becomes "openai". */
  function ValidateProvider(v: string): (r: string)
    ensures SupportedProvider(r)
    ensures SupportedProvider(Lower(v)) ==> r == Lower(v)
    ensures !SupportedProvider(Lower(v)) ==> r == "openai"
  {
    if !SupportedProvider(Lower(v)) then "openai" else Lower(v)
  }

  /** A stored provider is kept as it is when validated again. */
  lemma {:induction false} ValidateProviderIdempotent(v: string)
    ensures ValidateProvider(ValidateProvider(v)) == ValidateProvider(v)
  {
    var r := ValidateProvider(v);
    assert Lower("openai") == "openai";
    assert Lower("anthropic") == "anthropic";
    assert Lower("gemini") == "gemini";
  }

  /** Providers differing only in letter case are stored alike. */
  lemma {:induction false} ValidateProviderIgnoresCase(a: string, b: string)
    requires Lower(a) == Lower(b)
    ensures ValidateProvider(a) == ValidateProvider(b)
  {
  }

  datatype LlmConfig = LlmConfig(
    provider: string,
    openaiApiKey: Option<string>, openaiModel: string,
    anthropicApiKey: Option<string>, anthropicModel: string,
    geminiApiKey: Option<string>, geminiModel: string)

  /** `LLMConfig(...)`: the provider passes through its validator. */
  function NewLlmConfig(provider: string, openaiApiKey: Option<string>, openaiModel: string,
                        anthropicApiKey: Option<string>, anthropicModel: string,
                        geminiApiKey: Option<string>, geminiModel: string): (c: LlmConfig)
    ensures SupportedProvider(c.provider)
  {
    LlmConfig(ValidateProvider(provider), openaiApiKey, openaiModel, anthropicApiKey, anthropicModel, geminiApiKey, geminiModel)
  }

  /** `LLMConfig()` with every field defaulted. */
  function DefaultLlmConfig(): LlmConfig
  {
    NewLlmConfig("openai", None, "gpt-4o", None, "claude-3-opus-20240229", None, "gemini-pro")
  }

  /** `get_api_key`: the key field of the configured provider; None for a
      provider set afterwards to an unsupported value. */
  function GetApiKey(c: LlmConfig): (r: Option<string>)
    ensures c.provider == "openai" ==> r == c.openaiApiKey
    ensures c.provider == "anthropic" ==> r == c.anthropicApiKey
    ensures c.provider == "gemini" ==> r == c.geminiApiKey
    ensures !SupportedProvider(c.provider) ==> r == None
  {
    if c.provider == "openai" then c.openaiApiKey
    else if c.provider == "anthropic" then c.anthropicApiKey
    else if c.provider == "gemini" then c.geminiApiKey
    else None
  }

  /** `get_model`: the model field of the configured provider, "gpt-4o"
      for a provider set afterwards to an unsupported value. */
  function GetModel(c: LlmConfig): (r: string)
    ensures c.provider == "openai" ==> r == c.openaiModel
    ensures c.provider == "anthropic" ==> r == c.anthropicModel
    ensures c.provider == "gemini" ==> r == c.geminiModel
    ensures !SupportedProvider(c.provider) ==> r == "gpt-4o"
  {
    if c.provider == "openai" then c.openaiModel
    else if c.provider == "anthropic" then c.anthropicModel
    else if c.provider == "gemini" then c.geminiModel
    else "gpt-4o"
  }

  /** For a constructed configuration the getters always read one of the
      provider fields: an unsupported provider reads the OpenAI ones, and
      the fallbacks are never reached. */
  lemma {:induction false} GettersFollowProvider(provider: string, openaiApiKey: Option<string>, openaiModel: string,
                              anthropicApiKey: Option<string>, anthropicModel: string,
                              geminiApiKey: Option<string>, geminiModel: string)
    ensures var c := NewLlmConfig(provider, openaiApiKey, openaiModel, anthropicApiKey, anthropicModel, geminiApiKey, geminiModel);
      && (Lower(provider) == "anthropic" ==> GetApiKey(c) == anthropicApiKey && GetModel(c) == anthropicModel)
      && (Lower(provider) == "gemini" ==> GetApiKey(c) == geminiApiKey && GetModel(c) == geminiModel)
      && (Lower(provider) != "anthropic" && Lower(provider) != "gemini" ==> GetApiKey(c) == openaiApiKey && GetModel(c) == openaiModel)
  {
  }

  // ---------------------------------------------------------------------
  // Reading the environment
  // ---------------------------------------------------------------------

  /** `os.getenv(name)`. */
  function GetEnv(env: map<string, string>, name: string): Option<string>
  {
    if name in env then Some(env[name]) else None
  }

  /** `os.getenv(name, default)`: the default only when the variable is
      unset (an empty value is returned as it is). */
  function GetEnvOr(env: map<string, string>, name: string, default: string): string
  {
    if name in env then env[name] else default
  }

  /** The value of a run of decimal digits. */
  function DigitsValue(s: string): int
  {
    if s == [] then 0 else 10 * DigitsValue(s[..|s| - 1]) + (s[|s| - 1] as int - '0' as int)
  }

  lemma {:induction false} DigitsOfNat(n: nat)
    ensures DigitsValue(NatToString(n)) == n
    decreases n
  {
    if n >= 10 {
      var s := NatToString(n);
      assert s[..|s| - 1] == NatToString(n / 10);
      DigitsOfNat(n / 10);
    }
  }

  predicate AllDigits(s: string)
  {
    s != [] && forall i :: 0 <= i < |s| ==> IsDigit(s[i])
  }

  /** An optional sign and at least one digit. */
  function ParseSigned(t: string): (r: Option<int>)
    ensures r.Some? <==> AllDigits(t) || (|t| >= 2 && (t[0] == '+' || t[0] == '-') && AllDigits(t[1..]))
  {
    if AllDigits(t) then Some(DigitsValue(t))
    else if |t| >= 2 && t[0] == '-' && AllDigits(t[1..]) then Some(-DigitsValue(t[1..]))
    else if |t| >= 2 && t[0] == '+' && AllDigits(t[1..]) then Some(DigitsValue(t[1..]))
    else None
  }

  /** `int(s)` for base 10: surrounding whitespace, an optional sign, and at
      least one digit; anything else raises ValueError. */
  function PyInt(s: string): (r: Result<int, string>)
    ensures r.Ok? <==> ParseSigned(Strip(s)).Some?
  {
    var v := ParseSigned(Strip(s));
    if v.Some? then Ok(v.value) else Err("invalid literal for int() with base 10: '" + s + "'")
  }

  lemma {:induction false} ParseSignedOfString(n: int)
    ensures ParseSigned(IntToString(n)) == Some(n)
  {
    var s := IntToString(n);
    if n < 0 {
      DigitsOfNat(-n);
      assert s[1..] == NatToString(-n);
      assert !AllDigits(s) by { assert !IsDigit(s[0]); }
    } else {
      DigitsOfNat(n);
    }
  }

  /** `int(str(n))` gives n back. */
  lemma {:induction false} PyIntOfString(n: int)
    ensures PyInt(IntToString(n)) == Ok(n)
  {
    var s := IntToString(n);
    assert !IsSpace(s[0]) && !IsSpace(s[|s| - 1]) by {
      if n < 0 {
        assert s[|s| - 1] == NatToString(-n)[|s| - 2];
      }
    }
    StripOfStripped(s);
    ParseSignedOfString(n);
  }

  /** The default PORT, "8001", reads as 8001. */
  lemma {:induction false} DefaultPort()
    ensures PyInt("8001") == Ok(8001)
  {
    assert IntToString(8001) == "8001" by {
      assert NatToString(8001) == NatToString(800) + ['1'];
      assert NatToString(800) == NatToString(80) + ['0'];
      assert NatToString(80) == NatToString(8) + ['0'];
    }
    PyIntOfString(8001);
  }

  datatype DatabaseConfig = DatabaseConfig(supabaseUrl: Option<string>, supabaseKey: Option<string>, tableName: string)

  datatype ApiConfig = ApiConfig(host: string, port: int, enableCors: bool, apiToken: Option<string>)

  datatype Config = Config(llm: LlmConfig, database: DatabaseConfig, api: ApiConfig)

  /** `os.getenv("SUPABASE_KEY") or os.getenv("SUPABASE_SERVICE_KEY")`. */
  function SupabaseKey(env: map<string, string>): (r: Option<string>)
    ensures GetEnv(env, "SUPABASE_KEY").Some? && env["SUPABASE_KEY"] != "" ==> r == Some(env["SUPABASE_KEY"])
    ensures GetEnv(env, "SUPABASE_KEY").None? || env["SUPABASE_KEY"] == "" ==> r == GetEnv(env, "SUPABASE_SERVICE_KEY")
  {
    var key := GetEnv(env, "SUPABASE_KEY");
    if key.Some? && key.value != "" then key else GetEnv(env, "SUPABASE_SERVICE_KEY")
  }

  /** `ENABLE_CORS`, "True" when unset, compared case-insensitively with "true". */
  function EnableCors(env: map<string, string>): bool
  {
    Lower(GetEnvOr(env, "ENABLE_CORS", "True")) == "true"
  }

  /** CORS is on when ENABLE_CORS is unset, and otherwise exactly when its
      value is "true" in some letter case. */
  lemma {:induction false} EnableCorsValues(env: map<string, string>)
    ensures "ENABLE_CORS" !in env ==> EnableCors(env)
    ensures "ENABLE_CORS" in env ==> (EnableCors(env) <==> Lower(env["ENABLE_CORS"]) == "true")
    ensures "ENABLE_CORS" in env && |env["ENABLE_CORS"]| != 4 ==> !EnableCors(env)
  {
    assert Lower("True") == "true";
  }

  /** `Config.from_env()`; only the PORT conversion can raise. */
  function FromEnv(env: map<string, string>): (r: Result<Config, string>)
    ensures r.Ok? <==> PyInt(GetEnvOr(env, "PORT", "8001")).Ok?
  {
    var llm := NewLlmConfig(
      GetEnvOr(env, "LLM_PROVIDER", "openai"),
      GetEnv(env, "OPENAI_API_KEY"), GetEnvOr(env, "OPENAI_MODEL", "gpt-4o"),
      GetEnv(env, "ANTHROPIC_API_KEY"), GetEnvOr(env, "ANTHROPIC_MODEL", "claude-3-opus-20240229"),
      GetEnv(env, "GEMINI_API_KEY"), GetEnvOr(env, "GEMINI_MODEL", "gemini-pro"));
    var database := DatabaseConfig(GetEnv(env, "SUPABASE_URL"), SupabaseKey(env), GetEnvOr(env, "SUPABASE_TABLE", "messages"));
    var port := PyInt(GetEnvOr(env, "PORT", "8001"));
    if port.Err? then Err(port.error)
    else Ok(Config(llm, database, ApiConfig(GetEnvOr(env, "HOST", "0.0.0.0"), port.value, EnableCors(env), GetEnv(env, "API_BEARER_TOKEN"))))
  }

  /** With none of its variables set, the environment gives the declared
      defaults: OpenAI with gpt-4o, table "messages", 0.0.0.0:8001 with
      CORS on. */
  lemma {:induction false} FromEmptyEnv()
    ensures var r := FromEnv(map[]);
      && r.Ok?
      && r.value.llm == DefaultLlmConfig()
      && r.value.database == DatabaseConfig(None, None, "messages")
      && r.value.api == ApiConfig("0.0.0.0", 8001, true, None)
  {
    assert Lower("openai") == "openai";
    assert Lower("True") == "true";
    DefaultPort();
  }

  // ---------------------------------------------------------------------
  // get_config
  // ---------------------------------------------------------------------

  /** The module-level `_config_instance`. */
  class ConfigHolder {
    var instance: Option<Config>

    constructor()
      ensures instance == None
    {
      instance := None;
    }

    /** `get_config()`: built from the environment on the first call (a
        failing build leaves the slot empty and raises), then the stored
        instance on every later call, whatever the environment says then. */
    method GetConfig(env: map<string, string>) returns (r: Result<Config, string>)
      modifies this
      ensures old(instance).Some? ==> r == Ok(old(instance).value) && instance == old(instance)
      ensures old(instance).None? ==> r == FromEnv(env) && instance == (if r.Ok? then Some(r.value) else None)
    {
      if instance.None? {
        r := FromEnv(env);
        if r.Ok? {
          instance := Some(r.value);
        }
        return;
      }
      r := Ok(instance.value);
    }
  }
}
