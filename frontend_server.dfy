/** The `/config` endpoint of the frontend server: which backend API and
    WebSocket URLs a browser is told to use, chosen by its Host header. */
module FrontendServer {
  import opened Options
  import opened Text

  /** Addresses used when the page is reached through the public domain. */
  const ExternalDomain := "mdi.hkust-gz.edu.cn"
  const ExternalBackendApiUrl := "/fintech/api"
  const ExternalBackendWsUrl := "wss://mdi.hkust-gz.edu.cn/fintech"

  /** Addresses used when the configuration file cannot be read. */
  const DefaultBackendUrl := "/fintech/api"
  const DefaultBackendWsUrl := "ws://10.100.0.231:8001"

  /** The two backend addresses read once, at start-up. */
  datatype Settings = Settings(backendUrl: string, backendWsUrl: string)

  /** The `backend` object of the `/config` response. */
  datatype BackendConfig = BackendConfig(apiUrl: string, wsUrl: string)

  /** The settings: the file's `backend.api_url` and `backend.ws_url`, or
      the defaults for both when the file is missing or malformed or lacks
      any of the keys read at start-up (`None`). */
  function LoadSettings(file: Option<Settings>): (r: Settings)
    ensures file.Some? ==> r == file.value
    ensures file.None? ==> r == Settings(DefaultBackendUrl, DefaultBackendWsUrl)
  {
    match file
    case Some(s) => s
    case None => Settings(DefaultBackendUrl, DefaultBackendWsUrl)
  }

  /** `remove_protocol`: one leading `http://` or `https://` removed. */
  function RemoveProtocol(url: string): (r: string)
    ensures StartsWith(url, "https://") ==> r == url[8..]
    ensures StartsWith(url, "http://") ==> r == url[7..]
    ensures !StartsWith(url, "https://") && !StartsWith(url, "http://") ==> r == url
  {
    if StartsWith(url, "https://") then
      assert url[4] == 's' && !StartsWith(url, "http://");
      url[8..]
    else if StartsWith(url, "http://") then url[7..]
    else url
  }

  /** Only one scheme is removed: whatever follows it is kept, even another
      scheme. */
  lemma RemoveProtocolStripsOnce(rest: string)
    ensures RemoveProtocol("http://" + rest) == rest
    ensures RemoveProtocol("https://" + rest) == rest
  {
    assert ("http://" + rest)[..7] == "http://";
    assert ("http://" + rest)[4] == ':';
    assert ("https://" + rest)[..8] == "https://";
  }

  /** `is_external_access`: the Host header names the public domain. A
      missing header reads as the empty string, so it is internal. */
  function IsExternalAccess(host: Option<string>): (r: bool)
    ensures host.None? ==> !r
    ensures host.Some? ==> (r <==> exists k: nat :: OccursAt(host.value, ExternalDomain, k))
  {
    var h := match host case Some(v) => v case None => "";
    ContainsIff(h, ExternalDomain);
    Contains(h, ExternalDomain)
  }

  /** The URL written with a WebSocket scheme. */
  predicate HasWsScheme(url: string) {
    StartsWith(url, "ws://") || StartsWith(url, "wss://")
  }

  /** `get_config`: the public addresses for external access and the
      configured ones otherwise; a WebSocket URL without a WebSocket scheme
      gets `wss://` (external) or `ws://` (internal) after any `http(s)://`
      is removed. The API URL is passed on as selected. */
  function GetConfig(settings: Settings, host: Option<string>): (r: BackendConfig)
    ensures var external := IsExternalAccess(host);
      r.apiUrl == if external then ExternalBackendApiUrl else settings.backendUrl
    ensures HasWsScheme(r.wsUrl)
    ensures var external := IsExternalAccess(host);
      var selected := if external then ExternalBackendWsUrl else settings.backendWsUrl;
      && (HasWsScheme(selected) ==> r.wsUrl == selected)
      && (!HasWsScheme(selected) ==>
            r.wsUrl == (if external then "wss://" else "ws://") + RemoveProtocol(selected))
  {
    var external := IsExternalAccess(host);
    var apiUrl := if external then ExternalBackendApiUrl else settings.backendUrl;
    var wsUrl := if external then ExternalBackendWsUrl else settings.backendWsUrl;
    var wsUrl' :=
      if HasWsScheme(wsUrl) then wsUrl
      else if external then "wss://" + RemoveProtocol(wsUrl)
      else "ws://" + RemoveProtocol(wsUrl);
    assert HasWsScheme(wsUrl') by {
      if !HasWsScheme(wsUrl) {
        if external {
          assert StartsWith(wsUrl', "wss://") by { assert wsUrl'[..6] == "wss://"; }
        } else {
          assert StartsWith(wsUrl', "ws://") by { assert wsUrl'[..5] == "ws://"; }
        }
      }
    }
    BackendConfig(apiUrl, wsUrl')
  }

  /** From outside, the answer does not depend on the configuration file. */
  lemma ExternalConfigIsFixed(settings: Settings, host: Option<string>)
    requires IsExternalAccess(host)
    ensures GetConfig(settings, host) == BackendConfig(ExternalBackendApiUrl, ExternalBackendWsUrl)
  {
    assert ExternalBackendWsUrl[..6] == "wss://";
  }

  /** From inside, with the default settings, the configured address
      already carries `ws://` and is passed on unchanged. */
  lemma InternalDefaultConfig(host: Option<string>)
    requires !IsExternalAccess(host)
    ensures GetConfig(LoadSettings(None), host) == BackendConfig(DefaultBackendUrl, DefaultBackendWsUrl)
  {
    assert DefaultBackendWsUrl[..5] == "ws://";
  }
}
