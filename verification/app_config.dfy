/** The API settings: a development and a production class sharing the
    secret key, chosen by name or by the FLASK_ENV variable. Environment
    variables are parameters, `None` standing for an unset variable. */
module AppConfig {
  import opened Wrappers
  import opened Text

  datatype ConfigClass = DevConfig | ProdConfig

  /** The attributes a configuration class carries. */
  datatype Settings = Settings(secretKey: string, debug: bool)

  const DefaultEnv: string := "development"
  const DefaultSecretKey: string := "dev-secret"

  /** `os.getenv("SECRET_KEY", "dev-secret")`: a set variable wins, even
      when empty. */
  function SecretKey(secretEnv: Option<string>): (r: string)
    ensures secretEnv.Some? ==> r == secretEnv.value
    ensures secretEnv.None? ==> r == DefaultSecretKey
  {
    secretEnv.GetOr(DefaultSecretKey)
  }

  /** Debugging is on in development only. */
  function Debug(c: ConfigClass): (r: bool)
    ensures r <==> c == DevConfig
  {
    match c
    case DevConfig => true
    case ProdConfig => false
  }

  /** Both classes take the secret key from the shared base class. */
  function SettingsOf(c: ConfigClass, secretEnv: Option<string>): (r: Settings)
    ensures r.secretKey == SecretKey(secretEnv)
    ensures r.debug <==> c == DevConfig
  {
    Settings(SecretKey(secretEnv), Debug(c))
  }

  /** The lowercased environment name: `name` when truthy, else FLASK_ENV,
      else "development". */
  function SelectedEnv(name: Option<string>, flaskEnv: Option<string>): (r: string)
    ensures Truthy(name) ==> r == ToLower(name.value)
    ensures !Truthy(name) ==> r == ToLower(flaskEnv.GetOr(DefaultEnv))
    ensures ToLower(r) == r
  {
    var chosen := if Truthy(name) then name.value else flaskEnv.GetOr(DefaultEnv);
    ToLowerIdempotent(chosen);
    ToLower(chosen)
  }

  /** The lookup table; a name not in it falls back to development. */
  const Classes: map<string, ConfigClass> := map["development" := DevConfig, "production" := ProdConfig]

  /** `get_config`: production iff the selected name is "production". */
  function GetConfig(name: Option<string>, flaskEnv: Option<string>): (r: ConfigClass)
    ensures r == ProdConfig <==> SelectedEnv(name, flaskEnv) == "production"
  {
    var env := SelectedEnv(name, flaskEnv);
    if env in Classes then Classes[env] else DevConfig
  }

  /** An explicit name overrides FLASK_ENV. */
  lemma NameOverridesEnvironment(name: string, env1: Option<string>, env2: Option<string>)
    requires name != ""
    ensures GetConfig(Some(name), env1) == GetConfig(Some(name), env2)
  {
  }

  /** Names differing only in letter case select the same class. */
  lemma GetConfigIgnoresCase(a: string, b: string, flaskEnv: Option<string>)
    requires a != "" && b != "" && ToLower(a) == ToLower(b)
    ensures GetConfig(Some(a), flaskEnv) == GetConfig(Some(b), flaskEnv)
  {
  }

  /** With nothing set, the development settings apply, debugging on. */
  lemma DefaultIsDevelopment(secretEnv: Option<string>)
    ensures GetConfig(None, None) == DevConfig
    ensures SettingsOf(GetConfig(None, None), secretEnv).debug
  {
    assert ToLower(DefaultEnv)[0] == 'd';
  }
}
