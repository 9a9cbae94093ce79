/** `services.ts`: where the browser finds the backend, and how API paths are joined to it. */
module ServicesUrl {
  import opened Common

  /** `window.location` in the browser. */
  datatype Location = Location(protocol: string, hostname: string)

  const ServerSideFallback := "http://localhost:8000"

  /** `url.replace(/\/$/, '')`: one `/` at the very end is removed. */
  function StripTrailingSlash(url: string): (r: string)
    ensures r <= url
    ensures r == url || r + "/" == url
    ensures EndsWith(url, "/") <==> |r| == |url| - 1
  {
    if EndsWith(url, "/") then url[..|url| - 1] else url
  }

  /** The origin-relative fallback: the page's host, on port 8000 only for `localhost`. */
  function BrowserFallback(loc: Location): string {
    loc.protocol + "//" + loc.hostname + (if loc.hostname == "localhost" then ":8000" else "")
  }

  /**
   * `getServicesUrl`: the configured `NEXT_PUBLIC_SERVICES_URL` when set and non-empty, else the
   * browser fallback (`window` is present) or the server-side fallback; then one trailing `/` off.
   */
  function GetServicesUrl(configured: Option<string>, window: Option<Location>): string {
    var url := configured.GetOr("");
    var chosen := if url != "" then url
      else if window.Some? then BrowserFallback(window.value)
      else ServerSideFallback;
    StripTrailingSlash(chosen)
  }

  /** The three sources of the services URL, and which one is used when. */
  lemma ServicesUrlSources(configured: Option<string>, window: Option<Location>)
    ensures configured.Some? && configured.value != "" ==>
      GetServicesUrl(configured, window) == StripTrailingSlash(configured.value)
    ensures configured.GetOr("") == "" && window.Some? ==>
      GetServicesUrl(configured, window) == StripTrailingSlash(BrowserFallback(window.value))
    ensures configured.GetOr("") == "" && window.None? ==>
      GetServicesUrl(configured, window) == "http://localhost:8000"
  {
    assert !EndsWith(ServerSideFallback, "/");
  }

  /** The browser fallback ends in `:8000` exactly for `localhost`. */
  lemma BrowserFallbackPort(loc: Location)
    ensures loc.hostname == "localhost" ==> BrowserFallback(loc) == loc.protocol + "//localhost:8000"
    ensures loc.hostname != "localhost" ==> BrowserFallback(loc) == loc.protocol + "//" + loc.hostname
  {
  }

  /** Only one slash is removed: a URL ending in two keeps one. */
  lemma StripRemovesOneSlashOnly(url: string)
    ensures StripTrailingSlash(url + "//") == url + "/"
  {
    assert (url + "//")[..|url| + 1] == url + "/";
  }

  /** The path with a leading `/`, added only when it is missing. */
  function NormalizedPath(path: string): (r: string)
    ensures StartsWith(r, "/")
    ensures StartsWith(path, "/") ==> r == path
    ensures !StartsWith(path, "/") ==> r == "/" + path
  {
    if StartsWith(path, "/") then path else "/" + path
  }

  /**
   * `getFullApiUrl`: absolute URLs as they are; otherwise the normalised path, prefixed with the
   * services URL only when that URL is absolute.
   */
  function GetFullApiUrl(servicesUrl: string, path: string): string {
    if StartsWith(path, "http") then path
    else if !StartsWith(servicesUrl, "http") then NormalizedPath(path)
    else servicesUrl + NormalizedPath(path)
  }

  /**
   * The three cases of `getFullApiUrl`, and that applying it to its own result changes nothing:
   * every result is absolute or starts with `/`.
   */
  lemma FullApiUrlCases(servicesUrl: string, path: string)
    ensures StartsWith(path, "http") ==> GetFullApiUrl(servicesUrl, path) == path
    ensures !StartsWith(path, "http") && !StartsWith(servicesUrl, "http") ==>
      GetFullApiUrl(servicesUrl, path) == NormalizedPath(path)
    ensures !StartsWith(path, "http") && StartsWith(servicesUrl, "http") ==>
      GetFullApiUrl(servicesUrl, path) == servicesUrl + NormalizedPath(path)
    ensures StartsWith(GetFullApiUrl(servicesUrl, path), "http") || StartsWith(GetFullApiUrl(servicesUrl, path), "/")
    ensures GetFullApiUrl(servicesUrl, GetFullApiUrl(servicesUrl, path)) == GetFullApiUrl(servicesUrl, path)
  {
    var r := GetFullApiUrl(servicesUrl, path);
    if !StartsWith(path, "http") {
      if StartsWith(servicesUrl, "http") {
        assert r[..4] == servicesUrl[..4];
        assert StartsWith(r, "http");
      } else {
        assert r[0] == '/';
        assert !StartsWith(r, "http");
      }
    }
  }
}
