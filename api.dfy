/**
 * Where the page finds its backend (`config/api.ts`): an explicit
 * `REACT_APP_API_URL` wins; a production build talks to the page's own
 * origin (keeping a non-standard port); a development build talks to port
 * 3001 on the page's host. An unset environment variable is the empty
 * string here.
 */
module ApiConfig {

  const DevBackendPort := "3001"
  const Health := "/api/health"
  const Info := "/api/info"
  const UnityStatus := "/api/unity/status"
  const ChatStats := "/api/chat/stats"

  /** The parts of `window.location` the choice reads. */
  datatype Location = Location(protocol: string, hostname: string, port: string)

  /** `protocol//hostname`. */
  function Origin(loc: Location): string {
    loc.protocol + "//" + loc.hostname
  }

  /** A port that a URL without one already means. */
  predicate StandardPort(port: string) {
    port == "" || port == "80" || port == "443"
  }

  /** `getApiBaseUrl()`. */
  function ApiBaseUrl(apiUrl: string, nodeEnv: string, loc: Location): string {
    if apiUrl != "" then apiUrl
    else if nodeEnv == "production" then
      if loc.port != "" && loc.port != "80" && loc.port != "443" then Origin(loc) + ":" + loc.port
      else Origin(loc)
    else Origin(loc) + ":" + DevBackendPort
  }

  /** An explicit variable is the whole answer: the build and the page it is served from do not matter. */
  lemma ExplicitUrlIgnoresPage(apiUrl: string, env1: string, loc1: Location, env2: string, loc2: Location)
    requires apiUrl != ""
    ensures ApiBaseUrl(apiUrl, env1, loc1) == ApiBaseUrl(apiUrl, env2, loc2) == apiUrl
  {
  }

  /**
   * Without the variable the base URL always starts with the page's origin;
   * `:3001` follows in development, the page's port in production on a
   * non-standard port, and nothing otherwise.
   */
  lemma OriginPrefix(nodeEnv: string, loc: Location)
    ensures Origin(loc) <= ApiBaseUrl("", nodeEnv, loc)
    ensures |ApiBaseUrl("", nodeEnv, loc)| > |Origin(loc)| <==> nodeEnv != "production" || !StandardPort(loc.port)
    ensures nodeEnv != "production" ==> ApiBaseUrl("", nodeEnv, loc)[|Origin(loc)|..] == ":" + DevBackendPort
    ensures nodeEnv == "production" && !StandardPort(loc.port) ==> ApiBaseUrl("", nodeEnv, loc)[|Origin(loc)|..] == ":" + loc.port
  {
    var r := ApiBaseUrl("", nodeEnv, loc);
    assert r[..|Origin(loc)|] == Origin(loc);
  }

  /** A standard port is the same as no port, and outside production the page's port does not matter. */
  lemma PortIndependence(apiUrl: string, nodeEnv: string, loc: Location, other: string)
    ensures StandardPort(loc.port) && StandardPort(other) ==>
      ApiBaseUrl(apiUrl, nodeEnv, loc) == ApiBaseUrl(apiUrl, nodeEnv, loc.(port := other))
    ensures nodeEnv != "production" ==> ApiBaseUrl(apiUrl, nodeEnv, loc) == ApiBaseUrl(apiUrl, nodeEnv, loc.(port := other))
  {
  }

  /** `getApiUrl(endpoint)`: the endpoint appended to the base URL. */
  function ApiUrl(base: string, endpoint: string): (r: string)
    ensures |r| == |base| + |endpoint| && r[..|base|] == base && r[|base|..] == endpoint
  {
    base + endpoint
  }

  /**
   * `process.env.X || fallback`: an unset (empty) variable gives way to the
   * non-empty default, so the setting is never empty.
   */
  function EnvOr(env: string, fallback: string): (r: string)
    requires fallback != ""
    ensures r != ""
    ensures env != "" ==> r == env
    ensures env == "" ==> r == fallback
  {
    if env != "" then env else fallback
  }

  /** `UNITY_CONFIG.BUILD_URL`: the variable, or `/unity-build`. */
  function UnityBuildUrl(env: string): string {
    EnvOr(env, "/unity-build")
  }

  /** `APP_CONFIG.TITLE`: the variable, or `Convai Web Chat`. */
  function Title(env: string): string {
    EnvOr(env, "Convai Web Chat")
  }

  /** `APP_CONFIG.DEBUG`: only the exact text `true` turns it on. */
  predicate Debug(env: string) {
    env == "true"
  }
}
