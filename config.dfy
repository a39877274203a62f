/**
 * The bot's settings: the four credentials it cannot run without, the debug
 * switch read from the environment, and the view of the settings that is safe
 * to show (no credentials).
 */
module Config {
  import opened Wrappers
  import opened Text

  /** The process environment: variable name to value. */
  type Environment = map<string, string>

  /** `os.getenv(name, default)`. */
  function GetEnv(env: Environment, name: string, default: string): string {
    if name in env then env[name] else default
  }

  /** The values `FLASK_DEBUG` accepts as "on", compared after lower-casing. */
  const DebugOnValues: set<string> := {"true", "1", "yes", "on"}

  /** The debug switch: on exactly when the lower-cased `FLASK_DEBUG`
      (default "False") is one of the accepted values. */
  function FlaskDebug(env: Environment): (debug: bool)
    ensures "FLASK_DEBUG" !in env ==> !debug
    ensures debug ==> "FLASK_DEBUG" in env && |env["FLASK_DEBUG"]| <= 4
  {
    assert Lower("False") == "false";
    Lower(GetEnv(env, "FLASK_DEBUG", "False")) in DebugOnValues
  }

  /** The switch ignores letter case: a value and its lower-case form agree. */
  lemma FlaskDebugIgnoresCase(env: Environment, value: string)
    ensures FlaskDebug(env["FLASK_DEBUG" := value]) == FlaskDebug(env["FLASK_DEBUG" := Lower(value)])
  {
    LowerIdempotent(value);
  }

  /** "True", "YES" and "On" switch debugging on; "False" and "0" do not. */
  lemma FlaskDebugExamples(env: Environment)
    ensures FlaskDebug(env["FLASK_DEBUG" := "True"])
    ensures FlaskDebug(env["FLASK_DEBUG" := "YES"])
    ensures FlaskDebug(env["FLASK_DEBUG" := "On"])
    ensures !FlaskDebug(env["FLASK_DEBUG" := "False"])
    ensures !FlaskDebug(env["FLASK_DEBUG" := "0"])
  {
    assert Lower("True") == "true";
    assert Lower("YES") == "yes";
    assert Lower("On") == "on";
    assert Lower("False") == "false";
    assert Lower("0") == "0";
  }

  /** The settings as loaded; a credential is `None` when its variable is unset. */
  datatype Settings = Settings(
    whatsappToken: Option<string>,
    whatsappPhoneNumberId: Option<string>,
    webhookVerifyToken: Option<string>,
    openaiApiKey: Option<string>,
    flaskPort: int,
    flaskDebug: bool,
    logLevel: string,
    faqFilePath: string,
    logDir: string,
    openaiModel: string,
    maxFaqResults: int,
    maxMessageLength: int,
    sessionTimeout: int)

  /** The required variables, in the order they are checked and reported. */
  const RequiredVars: seq<string> := ["WHATSAPP_TOKEN", "WHATSAPP_PHONE_NUMBER_ID", "WEBHOOK_VERIFY_TOKEN", "OPENAI_API_KEY"]

  /** The credential stored under a required variable's name. */
  function Credential(cfg: Settings, name: string): Option<string> {
    if name == "WHATSAPP_TOKEN" then cfg.whatsappToken
    else if name == "WHATSAPP_PHONE_NUMBER_ID" then cfg.whatsappPhoneNumberId
    else if name == "WEBHOOK_VERIFY_TOKEN" then cfg.webhookVerifyToken
    else if name == "OPENAI_API_KEY" then cfg.openaiApiKey
    else None
  }

  /** Python truthiness of an optional string: set and non-empty. */
  predicate IsSet(v: Option<string>) {
    v.Some? && v.value != []
  }

  /** The names among `names` whose credential is unset, in their order. */
  function Missing(cfg: Settings, names: seq<string>): (r: seq<string>)
    ensures |r| <= |names|
    ensures forall n :: n in r <==> n in names && !IsSet(Credential(cfg, n))
    decreases |names|
  {
    if names == [] then []
    else
      var prev := Missing(cfg, names[..|names| - 1]);
      var n := names[|names| - 1];
      assert forall m :: m in names <==> m in names[..|names| - 1] || m == n by {
        assert names == names[..|names| - 1] + [n];
      }
      if !IsSet(Credential(cfg, n)) then prev + [n] else prev
  }

  /** `a` is `b` with some elements left out. */
  predicate IsSubsequence(a: seq<string>, b: seq<string>)
    decreases |b|
  {
    if a == [] then true
    else if b == [] then false
    else if a[|a| - 1] == b[|b| - 1] then IsSubsequence(a[..|a| - 1], b[..|b| - 1])
    else IsSubsequence(a, b[..|b| - 1])
  }

  /** The missing names keep the order of the list they come from. */
  lemma {:induction false} MissingInOrder(cfg: Settings, names: seq<string>)
    ensures IsSubsequence(Missing(cfg, names), names)
    decreases |names|
  {
    if names != [] {
      var init := names[..|names| - 1];
      MissingInOrder(cfg, init);
      var r := Missing(cfg, names);
      if !IsSet(Credential(cfg, names[|names| - 1])) {
        assert r[..|r| - 1] == Missing(cfg, init);
      } else {
        SubsequenceOfShorter(r, init, names[|names| - 1]);
      }
    }
  }

  lemma {:induction false} SubsequenceOfShorter(a: seq<string>, b: seq<string>, x: string)
    requires IsSubsequence(a, b)
    ensures IsSubsequence(a, b + [x])
    decreases |b|, 1
  {
    if a != [] {
      assert (b + [x])[..|b|] == b;
      if a[|a| - 1] == x {
        SubsequenceDropLast(a, b);
      }
    }
  }

  lemma {:induction false} SubsequenceDropLast(a: seq<string>, b: seq<string>)
    requires a != [] && IsSubsequence(a, b)
    ensures IsSubsequence(a[..|a| - 1], b)
    decreases |b|, 0
  {
    var init := a[..|a| - 1];
    if a[|a| - 1] == b[|b| - 1] {
      SubsequenceOfShorter(init, b[..|b| - 1], b[|b| - 1]);
      assert b[..|b| - 1] + [b[|b| - 1]] == b;
    } else {
      SubsequenceDropLast(a, b[..|b| - 1]);
      SubsequenceOfShorter(init, b[..|b| - 1], b[|b| - 1]);
      assert b[..|b| - 1] + [b[|b| - 1]] == b;
    }
  }

  const MissingPrefix := "Отсутствуют переменные окружения: "

  /** The message of the error raised when credentials are missing. */
  function MissingMessage(cfg: Settings): string {
    MissingPrefix + Join(Missing(cfg, RequiredVars), ", ")
  }

  /** Every missing variable is named in the message. */
  lemma MissingNamed(cfg: Settings, name: string)
    requires name in RequiredVars && !IsSet(Credential(cfg, name))
    ensures IsSubstring(name, MissingMessage(cfg))
  {
    var missing := Missing(cfg, RequiredVars);
    var k :| 0 <= k < |missing| && missing[k] == name;
    JoinOccurs(missing, ", ", k);
    var joined := Join(missing, ", ");
    InfixIsSubstring(joined, MissingMessage(cfg), |MissingPrefix|);
    SubstringTransitive(name, joined, MissingMessage(cfg));
  }

  /** Without a WhatsApp token the message names it. */
  lemma MissingTokenNamed(cfg: Settings)
    requires cfg.whatsappToken.None?
    ensures IsSubstring("WHATSAPP_TOKEN", MissingMessage(cfg))
  {
    MissingNamed(cfg, "WHATSAPP_TOKEN");
  }

  /** Succeeds exactly when all four credentials are set and non-empty;
      otherwise the error lists the missing ones in the fixed order. */
  method ValidateConfig(cfg: Settings) returns (r: Result<bool, string>)
    ensures r.Ok? <==> IsSet(cfg.whatsappToken) && IsSet(cfg.whatsappPhoneNumberId)
                       && IsSet(cfg.webhookVerifyToken) && IsSet(cfg.openaiApiKey)
    ensures r.Ok? ==> r.value
    ensures r.Err? ==> r.error == MissingMessage(cfg)
  {
    var missingVars: seq<string> := [];
    for i := 0 to |RequiredVars|
      invariant missingVars == Missing(cfg, RequiredVars[..i])
    {
      var name := RequiredVars[i];
      assert RequiredVars[..i + 1][..i] == RequiredVars[..i];
      if !IsSet(Credential(cfg, name)) {
        missingVars := missingVars + [name];
      }
    }
    assert RequiredVars[..|RequiredVars|] == RequiredVars;
    NoneMissingIffAllSet(cfg);
    if missingVars != [] {
      return Err(MissingPrefix + Join(missingVars, ", "));
    }
    return Ok(true);
  }

  /** Nothing is missing exactly when all four credentials are set. */
  lemma NoneMissingIffAllSet(cfg: Settings)
    ensures Missing(cfg, RequiredVars) == [] <==>
              IsSet(cfg.whatsappToken) && IsSet(cfg.whatsappPhoneNumberId)
              && IsSet(cfg.webhookVerifyToken) && IsSet(cfg.openaiApiKey)
  {
    var missing := Missing(cfg, RequiredVars);
    if missing != [] {
      var name := missing[0];
      assert name in missing;
      assert name == RequiredVars[0] || name == RequiredVars[1] || name == RequiredVars[2] || name == RequiredVars[3];
    } else {
      assert forall n :: n in RequiredVars ==> IsSet(Credential(cfg, n));
      assert IsSet(Credential(cfg, RequiredVars[0])) && IsSet(Credential(cfg, RequiredVars[1]))
          && IsSet(Credential(cfg, RequiredVars[2])) && IsSet(Credential(cfg, RequiredVars[3]));
    }
  }

  /** A value of the shown settings. */
  datatype Value = Int(i: int) | Bool(b: bool) | Str(s: string)

  const ShownKeys: set<string> := {
    "flask_port", "flask_debug", "log_level", "faq_file_path", "log_dir",
    "openai_model", "max_faq_results", "max_message_length", "session_timeout"}

  /** The settings that are safe to show: nine entries and no credential. */
  function GetConfigDict(cfg: Settings): (d: map<string, Value>)
    ensures d.Keys == ShownKeys
    ensures d["flask_debug"] == Bool(cfg.flaskDebug) && d["flask_port"] == Int(cfg.flaskPort)
  {
    map[
      "flask_port" := Int(cfg.flaskPort),
      "flask_debug" := Bool(cfg.flaskDebug),
      "log_level" := Str(cfg.logLevel),
      "faq_file_path" := Str(cfg.faqFilePath),
      "log_dir" := Str(cfg.logDir),
      "openai_model" := Str(cfg.openaiModel),
      "max_faq_results" := Int(cfg.maxFaqResults),
      "max_message_length" := Int(cfg.maxMessageLength),
      "session_timeout" := Int(cfg.sessionTimeout)]
  }

  /** The shown settings do not depend on any credential, and carry no key
      named after one. */
  lemma ConfigDictHidesCredentials(cfg: Settings, token: Option<string>, phoneId: Option<string>,
                                   verifyToken: Option<string>, apiKey: Option<string>)
    ensures GetConfigDict(cfg.(whatsappToken := token, whatsappPhoneNumberId := phoneId,
                               webhookVerifyToken := verifyToken, openaiApiKey := apiKey))
         == GetConfigDict(cfg)
    ensures "whatsapp_token" !in GetConfigDict(cfg) && "openai_api_key" !in GetConfigDict(cfg)
  {
  }
}
