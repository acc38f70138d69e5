/** The web client's HTTP layer (poker_score_frontend/src/api/request.ts): which base URL it
    talks to, the Authorization header it adds, and what it does with a response code. Build
    variables are "" when unset or blank; localStorage's session_id is a field. */
module ApiRequest {
  import opened Common
  import Middlewares

  /** The API path used when no base URL is configured. */
  const DefaultApiPath: string := "/api"

  // ---------------------------------------------------------------------------
  // Build variables
  // ---------------------------------------------------------------------------

  /** The characters JavaScript's String.prototype.trim removes. */
  predicate JsSpace(c: char) {
    c == ' ' || c == '\t' || c == '\n' || c == '\r' || c == '\U{000B}' || c == '\U{000C}'
    || c == '\U{00A0}' || c == '\U{1680}' || ('\U{2000}' <= c <= '\U{200A}')
    || c == '\U{2028}' || c == '\U{2029}' || c == '\U{202F}' || c == '\U{205F}' || c == '\U{3000}'
    || c == '\U{FEFF}'
  }

  function JsTrimStart(s: string): (r: string)
    ensures |r| <= |s| && (r == [] || !JsSpace(r[0]))
  {
    if |s| > 0 && JsSpace(s[0]) then JsTrimStart(s[1..]) else s
  }

  function JsTrimEnd(s: string): (r: string)
    ensures |r| <= |s| && (r == [] || !JsSpace(r[|r| - 1]))
    ensures r == [] || JsSpace(s[0]) || r[0] == s[0]
  {
    if |s| > 0 && JsSpace(s[|s| - 1]) then JsTrimEnd(s[..|s| - 1]) else s
  }

  /** A build variable as the module reads it: trimmed, "" when it is not defined. */
  function BuildVariable(v: Option<string>): (r: string)
    ensures r == [] || (!JsSpace(r[0]) && !JsSpace(r[|r| - 1]))
  {
    if v.None? then "" else JsTrimEnd(JsTrimStart(v.value))
  }

  // ---------------------------------------------------------------------------
  // Base URL
  // ---------------------------------------------------------------------------

  /** isAbsoluteHttpUrl */
  predicate IsAbsoluteHttpUrl(url: string) {
    HasPrefix(url, "http://") || HasPrefix(url, "https://")
  }

  /** resolveApiBaseUrl: in the native app the native URL when set, then the web URL when it
      is absolute; then, native or not, the web URL when set; else "/api". */
  function ResolveApiBaseUrl(nativeRuntime: bool, nativeUrl: string, webUrl: string): (url: string)
    ensures url != ""
    ensures url == nativeUrl || url == webUrl || url == DefaultApiPath
  {
    if nativeRuntime && nativeUrl != "" then nativeUrl
    else if nativeRuntime && webUrl != "" && IsAbsoluteHttpUrl(webUrl) then webUrl
    else if webUrl != "" then webUrl
    else DefaultApiPath
  }

  /** The order in which the sources win. */
  lemma ResolveApiBaseUrlOrder(nativeRuntime: bool, nativeUrl: string, webUrl: string)
    ensures nativeRuntime && nativeUrl != "" ==> ResolveApiBaseUrl(nativeRuntime, nativeUrl, webUrl) == nativeUrl
    ensures (!nativeRuntime || nativeUrl == "") && webUrl != "" ==> ResolveApiBaseUrl(nativeRuntime, nativeUrl, webUrl) == webUrl
    ensures (!nativeRuntime || nativeUrl == "") && webUrl == "" ==> ResolveApiBaseUrl(nativeRuntime, nativeUrl, webUrl) == DefaultApiPath
    ensures !nativeRuntime && ResolveApiBaseUrl(nativeRuntime, nativeUrl, webUrl) == nativeUrl ==> nativeUrl == webUrl || nativeUrl == DefaultApiPath
  {
  }

  /** normalizeBaseUrl: an absolute URL is kept; otherwise a leading '/' is added when missing. */
  function NormalizeBaseUrl(url: string): (r: string)
    ensures IsAbsoluteHttpUrl(url) ==> r == url
    ensures IsAbsoluteHttpUrl(r) || (|r| > 0 && r[0] == '/')
    ensures r == url || r == "/" + url
  {
    if IsAbsoluteHttpUrl(url) then url
    else if HasPrefix(url, "/") then url
    else "/" + url
  }

  /** Normalising twice is normalising once. */
  lemma NormalizeBaseUrlIdempotent(url: string)
    ensures NormalizeBaseUrl(NormalizeBaseUrl(url)) == NormalizeBaseUrl(url)
  {
    var r := NormalizeBaseUrl(url);
    if !IsAbsoluteHttpUrl(r) {
      assert HasPrefix(r, "/");
    }
  }

  /** The client's base URL: absolute or rooted at '/', never empty. */
  function ApiBaseUrl(nativeRuntime: bool, nativeVariable: Option<string>, webVariable: Option<string>): (url: string)
    ensures IsAbsoluteHttpUrl(url) || (|url| > 0 && url[0] == '/')
  {
    NormalizeBaseUrl(ResolveApiBaseUrl(nativeRuntime, BuildVariable(nativeVariable), BuildVariable(webVariable)))
  }

  // ---------------------------------------------------------------------------
  // Interceptors
  // ---------------------------------------------------------------------------

  /** The request interceptor's Authorization header: "Bearer " and the stored id, none
      when no id is stored. */
  function AuthorizationHeader(sessionId: Option<string>): Option<string> {
    if sessionId.Some? && sessionId.value != "" then Some("Bearer " + sessionId.value) else None
  }

  /** The server reads back exactly the session id the client stored. */
  lemma AuthorizationRoundTrip(sessionId: string)
    requires sessionId != ""
    ensures Middlewares.FromAuthorization(AuthorizationHeader(Some(sessionId)).value) == sessionId
  {
    var header := "Bearer " + sessionId;
    assert header[..7] == "Bearer ";
    assert header[7..] == sessionId;
  }

  /** The response body every endpoint answers with. */
  datatype Envelope = Envelope(code: int, message: string, data: string)

  /** The message shown for a failure without a message of its own. */
  const RequestFailed: string := "请求失败"

  class ClientSession {
    /** localStorage's session_id. */
    var sessionId: Option<string>

    constructor (sessionId: Option<string>)
      ensures this.sessionId == sessionId
    {
      this.sessionId := sessionId;
    }

    /** The response interceptor: code 0 yields the body; any other code is a rejection with
        the server's message (or a stock one), and 401 also forgets the stored session. */
    method OnResponse(res: Envelope) returns (r: Result<Envelope, string>)
      modifies this`sessionId
      ensures res.code == 0 <==> r.Ok?
      ensures r.Ok? ==> r.value == res
      ensures r.Err? ==> r.error == (if res.message != "" then res.message else RequestFailed)
      ensures res.code == 401 ==> sessionId.None?
      ensures res.code != 401 ==> sessionId == old(sessionId)
    {
      if res.code != 0 {
        if res.code == 401 {
          sessionId := None;
        }
        return Err(if res.message != "" then res.message else RequestFailed);
      }
      return Ok(res);
    }

    /** The error interceptor: an HTTP 401 forgets the stored session; the request stays
        rejected whatever the status. */
    method OnHttpError(status: Option<int>)
      modifies this`sessionId
      ensures status == Some(401) ==> sessionId.None?
      ensures status != Some(401) ==> sessionId == old(sessionId)
    {
      if status == Some(401) {
        sessionId := None;
      }
    }
  }
}
