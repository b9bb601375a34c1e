/**
 * The API address of the frontend (frontend/src/lib/api/config.ts): the base
 * URL and version, each from the build environment with a default, and
 * `getApiUrl`, which places an endpoint path under `/api/{version}/`.
 */
module ApiConfig {
  import opened Wrappers
  import opened Text

  const DefaultBaseUrl := "http://localhost:8000"
  const DefaultVersion := "v1"
  const TimeoutMs := 30000

  /** `import.meta.env.X || default`: an unset or empty variable gives the default. */
  function FromEnv(v: Option<string>, default: string): (r: string)
    ensures IsSet(v) ==> r == v.value
    ensures (v.None? || v.value == "") ==> r == default
  {
    if IsSet(v) then v.value else default
  }

  datatype ApiSettings = ApiSettings(baseUrl: string, version: string)

  /** `API_CONFIG` from `VITE_API_BASE_URL` and `VITE_API_VERSION`. */
  function Settings(baseUrlEnv: Option<string>, versionEnv: Option<string>): (s: ApiSettings)
    ensures s.baseUrl != "" && s.version != ""
  {
    ApiSettings(FromEnv(baseUrlEnv, DefaultBaseUrl), FromEnv(versionEnv, DefaultVersion))
  }

  /** The path with one leading "/" removed, when it has one. */
  function CleanPath(path: string): (r: string)
    ensures StartsWith(path, "/") ==> r == path[1..]
    ensures !StartsWith(path, "/") ==> r == path
  {
    if StartsWith(path, "/") then path[1..] else path
  }

  /** What every URL of these settings begins with. */
  function Prefix(s: ApiSettings): string
  {
    s.baseUrl + "/api/" + s.version + "/"
  }

  /** `getApiUrl(path)`. */
  function GetApiUrl(s: ApiSettings, path: string): (url: string)
    ensures StartsWith(url, Prefix(s))
    ensures url[|Prefix(s)|..] == CleanPath(path)
  {
    assert (Prefix(s) + CleanPath(path))[..|Prefix(s)|] == Prefix(s);
    Prefix(s) + CleanPath(path)
  }

  /** A leading slash makes no difference, when the rest does not start with another. */
  lemma LeadingSlashIgnored(s: ApiSettings, p: string)
    requires !StartsWith(p, "/")
    ensures GetApiUrl(s, "/" + p) == GetApiUrl(s, p)
  {
    assert StartsWith("/" + p, "/");
    assert ("/" + p)[1..] == p;
  }

  /** Only one slash is removed: a second one stays in the URL, right after the prefix. */
  lemma OnlyOneSlashRemoved(s: ApiSettings, p: string)
    ensures GetApiUrl(s, "//" + p) == Prefix(s) + "/" + p
  {
    assert StartsWith("//" + p, "/");
    assert ("//" + p)[1..] == "/" + p;
  }

  /** Different endpoint paths without a leading slash give different URLs. */
  lemma DistinctPathsDistinctUrls(s: ApiSettings, p: string, q: string)
    requires !StartsWith(p, "/") && !StartsWith(q, "/")
    ensures GetApiUrl(s, p) == GetApiUrl(s, q) <==> p == q
  {
  }
}
