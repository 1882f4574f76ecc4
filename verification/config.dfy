/** The environment configuration: values read from the process
    environment (a map from variable name to text; an absent key is
    `undefined`), their defaults, the debug flag and the validity check. */
module Config {
  import opened Wrappers

  type Env = map<string, string>

  const DefaultSiteUrl: string := "http://localhost:3000"

  datatype Settings = Settings(
    apiUrl: Option<string>, backEndUrl: Option<string>, siteUrl: string, nodeEnv: string,
    enableDebugLogs: bool, enableErrorBoundary: bool)

  /** `env[key]`, `undefined` when unset. */
  function Lookup(env: Env, key: string): (r: Option<string>)
    ensures r.Some? <==> key in env
    ensures r.Some? ==> r.value == env[key]
  {
    if key in env then Some(env[key]) else None
  }

  /** A string value is truthy iff it is set and not empty. */
  predicate Truthy(v: Option<string>) {
    v.Some? && v.value != ""
  }

  /** `v || fallback`. */
  function OrDefault(v: Option<string>, fallback: string): (r: string)
    ensures Truthy(v) ==> r == v.value
    ensures !Truthy(v) ==> r == fallback
  {
    if Truthy(v) then v.value else fallback
  }

  /** The configuration object built from the environment. */
  function Load(env: Env): (c: Settings)
    ensures c.enableDebugLogs <==> "NODE_ENV" in env && env["NODE_ENV"] == "development"
    ensures c.enableErrorBoundary
    ensures c.apiUrl == Lookup(env, "NEXT_PUBLIC_API_URL")
  {
    Settings(
      Lookup(env, "NEXT_PUBLIC_API_URL"),
      Lookup(env, "NEXT_PUBLIC_BACKEND_URL"),
      OrDefault(Lookup(env, "NEXT_PUBLIC_SITE_URL"), DefaultSiteUrl),
      OrDefault(Lookup(env, "NODE_ENV"), "development"),
      Lookup(env, "NODE_ENV") == Some("development"),
      true)
  }

  datatype Validation = Validation(valid: bool, issues: seq<string>)

  /** `config.isValid()`. */
  function IsValid(c: Settings): (r: Validation)
    ensures r.valid <==> r.issues == []
    ensures "NEXT_PUBLIC_API_URL is not configured" in r.issues <==> !Truthy(c.apiUrl)
    ensures "NEXT_PUBLIC_SITE_URL is not configured" in r.issues <==> c.siteUrl == ""
  {
    var issues :=
      (if !Truthy(c.apiUrl) then ["NEXT_PUBLIC_API_URL is not configured"] else [])
      + (if c.siteUrl == "" then ["NEXT_PUBLIC_SITE_URL is not configured"] else []);
    Validation(|issues| == 0, issues)
  }

  /** The site URL always has a value, so a loaded configuration never
      reports it, and it is valid exactly when the API URL is set and not
      empty. */
  lemma LoadedValidity(env: Env)
    ensures Load(env).siteUrl != ""
    ensures IsValid(Load(env)).issues == (if Truthy(Lookup(env, "NEXT_PUBLIC_API_URL")) then [] else ["NEXT_PUBLIC_API_URL is not configured"])
    ensures IsValid(Load(env)).valid <==> "NEXT_PUBLIC_API_URL" in env && env["NEXT_PUBLIC_API_URL"] != ""
  {
  }

  /** With no `NODE_ENV` the environment name reads `development`, yet the
      debug flag stays off: the flag looks at the raw variable. */
  lemma DebugFlagIgnoresDefault()
    ensures Load(map[]).nodeEnv == "development"
    ensures !Load(map[]).enableDebugLogs
  {
  }

  /** An empty site URL variable falls back to the default. */
  lemma EmptySiteUrlDefaults(env: Env)
    requires "NEXT_PUBLIC_SITE_URL" in env && env["NEXT_PUBLIC_SITE_URL"] == ""
    ensures Load(env).siteUrl == DefaultSiteUrl
  {
  }
}
