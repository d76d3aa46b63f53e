/**
 * Resolution of the client's settings (src/queryboost/config/config.py):
 * each of the API key, URL and port is the first truthy value among the
 * explicit parameter, the environment variable and (URL and port only) a
 * default. The process environment is passed in as a map.
 */
module Config {
  import opened Common
  import opened Exceptions

  const DefaultUrl: string := "grpc+tls://api.queryboost.com"
  const DefaultPort: int := 443

  const ApiKeyVariable: string := "QUERYBOOST_API_KEY"
  const UrlVariable: string := "QUERYBOOST_URL"
  const PortVariable: string := "QUERYBOOST_PORT"

  const MissingApiKeyMessage: string :=
    "You haven't specified an API key. Please either set the QUERYBOOST_API_KEY environment variable or pass the 'api_key' keyword argument to the Queryboost client constructor."

  /** A port is kept in the form it arrived in: an integer, or the text of an environment variable. */
  datatype Port = IntPort(number: int) | TextPort(text: string)

  /** The resolved settings (the `Config` named tuple). */
  datatype Config = Config(apiKey: string, url: string, port: Port)

  /** Python truthiness of an optional port: present, and neither 0 nor "". */
  predicate PortTruthy(v: Option<Port>) {
    match v
    case None => false
    case Some(IntPort(n)) => n != 0
    case Some(TextPort(t)) => t != ""
  }

  /** `os.getenv(name)`. */
  function GetEnv(env: map<string, string>, name: string): Option<string> {
    if name in env then Some(env[name]) else None
  }

  /** Python's `a or b` on optional strings. */
  function Or(a: Option<string>, b: Option<string>): Option<string> {
    if Truthy(a) then a else b
  }

  /** Python's `a or b` on optional ports. */
  function PortOr(a: Option<Port>, b: Option<Port>): Option<Port> {
    if PortTruthy(a) then a else b
  }

  /** The environment's value for the port, if any, as text. */
  function EnvPort(env: map<string, string>): Option<Port> {
    if PortVariable in env then Some(TextPort(env[PortVariable])) else None
  }

  /** `ConfigBuilder.build(api_key, url, port)` run in the environment `env`. */
  function Build(apiKey: Option<string>, url: Option<string>, port: Option<Port>, env: map<string, string>): (r: Result<Config, Exc>)
    ensures r.Success? <==> Truthy(apiKey) || Truthy(GetEnv(env, ApiKeyVariable))
    ensures r.Failure? ==> r.error == Exc(Queryboost(ConfigurationError), MissingApiKeyMessage)
    ensures r.Success? ==> r.value.apiKey != "" && r.value.url != "" && PortTruthy(Some(r.value.port))
  {
    var resolvedKey := Or(apiKey, GetEnv(env, ApiKeyVariable));
    var resolvedUrl := Or(Or(url, GetEnv(env, UrlVariable)), Some(DefaultUrl));
    var resolvedPort := PortOr(PortOr(port, EnvPort(env)), Some(IntPort(DefaultPort)));
    if !Truthy(resolvedKey) then
      Failure(Exc(Queryboost(ConfigurationError), MissingApiKeyMessage))
    else
      Success(Config(resolvedKey.value, resolvedUrl.value, resolvedPort.value))
  }

  /** A truthy parameter wins over the environment and the default, and keeps its form. */
  lemma ParameterTakesPrecedence(apiKey: string, url: string, port: Port, env: map<string, string>)
    requires apiKey != "" && url != "" && PortTruthy(Some(port))
    ensures Build(Some(apiKey), Some(url), Some(port), env) == Success(Config(apiKey, url, port))
  {
  }

  /** With no (or a falsy) parameter, a non-empty environment value is used; the port stays text. */
  lemma EnvironmentWhenNoParameter(apiKey: Option<string>, url: Option<string>, port: Option<Port>, env: map<string, string>)
    requires !Truthy(apiKey) && !Truthy(url) && !PortTruthy(port)
    requires ApiKeyVariable in env && env[ApiKeyVariable] != ""
    requires UrlVariable in env && env[UrlVariable] != ""
    requires PortVariable in env && env[PortVariable] != ""
    ensures Build(apiKey, url, port, env)
      == Success(Config(env[ApiKeyVariable], env[UrlVariable], TextPort(env[PortVariable])))
  {
  }

  /** With neither a truthy parameter nor a non-empty environment value, URL and port take their defaults. */
  lemma DefaultsWhenNeither(apiKey: string, url: Option<string>, port: Option<Port>, env: map<string, string>)
    requires apiKey != ""
    requires !Truthy(url) && !Truthy(GetEnv(env, UrlVariable))
    requires !PortTruthy(port) && !Truthy(GetEnv(env, PortVariable))
    ensures Build(Some(apiKey), url, port, env)
      == Success(Config(apiKey, "grpc+tls://api.queryboost.com", IntPort(443)))
  {
  }

  /** A missing or empty API key from both sources is a configuration error, whatever else is given. */
  lemma MissingApiKeyRejected(apiKey: Option<string>, url: Option<string>, port: Option<Port>, env: map<string, string>)
    requires !Truthy(apiKey) && !Truthy(GetEnv(env, ApiKeyVariable))
    ensures Build(apiKey, url, port, env).Failure?
    ensures Build(apiKey, url, port, env).error.cls == Queryboost(ConfigurationError)
  {
  }
  /**
   * Each setting follows its own precedence, whatever the others do: the
   * settings of a successful build come from different sources, field by field.
   */
  lemma FieldsResolvedSeparately(apiKey: Option<string>, url: Option<string>, port: Option<Port>, env: map<string, string>)
    requires Build(apiKey, url, port, env).Success?
    ensures var c := Build(apiKey, url, port, env).value;
      c.apiKey == (if Truthy(apiKey) then apiKey.value else env[ApiKeyVariable]) &&
      c.url == (if Truthy(url) then url.value else if Truthy(GetEnv(env, UrlVariable)) then env[UrlVariable] else DefaultUrl) &&
      c.port == (if PortTruthy(port) then port.value else if Truthy(GetEnv(env, PortVariable)) then TextPort(env[PortVariable]) else IntPort(DefaultPort))
  {
  }

  /** A setting depends only on its own parameter and its own variable. */
  lemma SettingsIndependent(apiKey: Option<string>, url: Option<string>, port: Option<Port>, env: map<string, string>,
                            apiKey': Option<string>, url': Option<string>, port': Option<Port>, env': map<string, string>)
    requires Build(apiKey, url, port, env).Success? && Build(apiKey', url', port', env').Success?
    ensures url == url' && GetEnv(env, UrlVariable) == GetEnv(env', UrlVariable) ==>
      Build(apiKey, url, port, env).value.url == Build(apiKey', url', port', env').value.url
    ensures port == port' && GetEnv(env, PortVariable) == GetEnv(env', PortVariable) ==>
      Build(apiKey, url, port, env).value.port == Build(apiKey', url', port', env').value.port
    ensures apiKey == apiKey' && GetEnv(env, ApiKeyVariable) == GetEnv(env', ApiKeyVariable) ==>
      Build(apiKey, url, port, env).value.apiKey == Build(apiKey', url', port', env').value.apiKey
  {
  }

  /** Mixed sources: the URL from the parameter, the port from the environment, the key from the environment. */
  lemma MixedSources(url: string, env: map<string, string>)
    requires url != ""
    requires ApiKeyVariable in env && env[ApiKeyVariable] != ""
    requires PortVariable in env && env[PortVariable] != ""
    ensures Build(None, Some(url), Some(IntPort(0)), env)
      == Success(Config(env[ApiKeyVariable], url, TextPort(env[PortVariable])))
  {
  }
}
