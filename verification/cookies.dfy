/** The session cookie the auth controller sets (backend/controllers/auth.go): whether it is
    Secure, its SameSite mode, and the Domain it names. A request is reduced to the parts these
    decisions read. */
module AuthCookies {
  import opened Common
  import Config

  datatype SameSite = StrictMode | LaxMode | NoneMode

  /** The parts of a request the cookie decisions read. A header that is absent is "". */
  datatype Request = Request(host: string, tls: bool, forwardedProto: string, forwardedScheme: string, userAgent: string)

  /** The cookie settings of the server configuration. */
  datatype CookieConfig = CookieConfig(secure: bool, sameSite: string, domain: string, name: string, maxAge: int)

  // ---------------------------------------------------------------------------
  // SameSite
  // ---------------------------------------------------------------------------

  /** parseSameSiteFromConfig: strict, lax and none in any case and with surrounding
      whitespace; anything else is Lax. */
  function ParseSameSite(configured: string): (m: SameSite)
    ensures m == StrictMode <==> ToLower(TrimSpace(configured)) == "strict"
    ensures m == NoneMode <==> ToLower(TrimSpace(configured)) == "none"
  {
    var v := ToLower(TrimSpace(configured));
    if v == "strict" then StrictMode
    else if v == "lax" then LaxMode
    else if v == "none" then NoneMode
    else LaxMode
  }

  /** The controller and the configuration loader agree: parsing the normalised spelling gives
      the mode the raw value would have given. */
  lemma ParseNormalizedSameSite(configured: string)
    ensures ParseSameSite(Config.NormalizeSameSite(configured)) == ParseSameSite(configured)
  {
    var w := Config.NormalizeSameSite(configured);
    Config.SameSiteSpellingFixed(w);
  }

  // ---------------------------------------------------------------------------
  // Mobile webviews
  // ---------------------------------------------------------------------------

  /** A case-insensitive regular expression folds its subject the way strings.EqualFold
      does; the webview markers are already folded. */
  function Fold(s: string): (r: string)
    ensures |r| == |s| && forall i :: 0 <= i < |s| ==> r[i] == SimpleFold(s[i])
  {
    seq(|s|, i requires 0 <= i < |s| => SimpleFold(s[i]))
  }

  /** t occurs in s at position i. */
  predicate OccursAt(s: string, t: string, i: int) {
    0 <= i && i + |t| <= |s| && s[i..i + |t|] == t
  }

  predicate Contains(s: string, t: string) {
    exists i :: 0 <= i <= |s| - |t| && OccursAt(s, t, i)
  }

  /** The markers of the apps whose webviews handle SameSite=None badly, folded. */
  const WebViewMarkers: seq<string> := ["micromessenger", "wechat", "qq/", "quark", "ucbrowser", "alipay", "dingtalk"]

  /** isMobileWebView: a non-empty user agent containing one of the markers in any case. */
  predicate IsMobileWebView(ua: string) {
    ua != "" && exists k :: 0 <= k < |WebViewMarkers| && Contains(Fold(ua), WebViewMarkers[k])
  }

  /** Only a user agent with some marker in it is a webview; the empty one never is. */
  lemma WebViewNeedsMarker(ua: string)
    ensures IsMobileWebView(ua) ==> |ua| >= 3
    ensures IsMobileWebView("") == false
  {
    if IsMobileWebView(ua) {
      var k :| 0 <= k < |WebViewMarkers| && Contains(Fold(ua), WebViewMarkers[k]);
      assert |WebViewMarkers[k]| >= 3;
    }
  }

  // ---------------------------------------------------------------------------
  // resolveCookieSecurity
  // ---------------------------------------------------------------------------

  /** The Secure flag: the configuration, then TLS, then the two forwarding headers, each
      consulted only while the flag is still false. */
  function CookieSecure(configured: bool, req: Request): (secure: bool)
    ensures secure <==> configured || req.tls || EqualFold(req.forwardedProto, "https")
                        || EqualFold(req.forwardedScheme, "https")
  {
    var s1 := configured;
    var s2 := if !s1 then req.tls else s1;
    var s3 := if !s2 && EqualFold(req.forwardedProto, "https") then true else s2;
    if !s3 && EqualFold(req.forwardedScheme, "https") then true else s3
  }

  /** The SameSite mode: the configured one, except that a mobile webview gets Lax instead
      of None. */
  function CookieSameSite(configured: string, ua: string): (m: SameSite)
    ensures m == NoneMode ==> !IsMobileWebView(ua)
    ensures m != ParseSameSite(configured) ==> ParseSameSite(configured) == NoneMode && m == LaxMode
    ensures !IsMobileWebView(ua) ==> m == ParseSameSite(configured)
  {
    var m := ParseSameSite(configured);
    if IsMobileWebView(ua) && m == NoneMode then LaxMode else m
  }

  // ---------------------------------------------------------------------------
  // resolveCookieDomain
  // ---------------------------------------------------------------------------

  /** The host without its port: everything before the first ':'. */
  function StripPort(host: string): (h: string)
    ensures ':' !in h && h <= host
    ensures ':' !in host ==> h == host
  {
    var idx := IndexOfChar(host, ':');
    if idx.Some? then host[..idx.value] else host
  }

  /** strings.TrimSuffix */
  function TrimSuffix(s: string, suffix: string): (r: string)
    ensures HasSuffix(s, suffix) ==> r + suffix == s
    ensures !HasSuffix(s, suffix) ==> r == s
  {
    if HasSuffix(s, suffix) then s[..|s| - |suffix|] else s
  }

  /** resolveCookieDomain: the trimmed configured domain when the request has no host, when
      its host (port dropped) equals it in any case, or when the host is a subdomain of it;
      otherwise no domain, so the browser scopes the cookie to the host. */
  function ResolveCookieDomain(configuredDomain: string, host: string): (d: string)
    ensures d == "" || d == TrimSpace(configuredDomain)
  {
    var configured := TrimSpace(configuredDomain);
    if configured == "" then ""
    else if host == "" then configured
    else
      var h := StripPort(host);
      if EqualFold(h, configured) then configured
      else if HasSuffix(h, configured) && HasSuffix(TrimSuffix(h, configured), ".") then configured
      else ""
  }

  /** h lies under the domain: it ends with a dot followed by the domain. */
  predicate Subdomain(h: string, domain: string) {
    HasSuffix(h, "." + domain)
  }

  /** The configured domain is used exactly when it is set and the host is missing, equal to
      it in any case, or a subdomain of it. */
  lemma CookieDomainCases(configuredDomain: string, host: string)
    ensures var configured := TrimSpace(configuredDomain);
            var h := StripPort(host);
            && (ResolveCookieDomain(configuredDomain, host) != "" <==>
                  configured != "" && (host == "" || EqualFold(h, configured) || Subdomain(h, configured)))
  {
    var configured := TrimSpace(configuredDomain);
    var h := StripPort(host);
    if configured != "" && host != "" && !EqualFold(h, configured) {
      SuffixSplit(h, configured);
    }
  }

  /** Ending in the domain with a '.' before it is ending in "." + domain. */
  lemma SuffixSplit(h: string, domain: string)
    ensures HasSuffix(h, domain) && HasSuffix(TrimSuffix(h, domain), ".") <==> Subdomain(h, domain)
  {
    var dotted := "." + domain;
    if Subdomain(h, domain) {
      assert h[|h| - |domain|..] == dotted[1..];
      var p := h[..|h| - |domain|];
      assert p[|p| - 1] == h[|h| - |dotted|];
    }
    if HasSuffix(h, domain) && HasSuffix(TrimSuffix(h, domain), ".") {
      var p := TrimSuffix(h, domain);
      assert h == p + domain;
      assert h[|h| - |dotted|..] == p[|p| - 1..] + domain;
    }
  }

  // ---------------------------------------------------------------------------
  // setSessionCookie
  // ---------------------------------------------------------------------------

  /** A cookie as written; a domain of "" means the attribute is left out. */
  datatype Cookie = Cookie(name: string, value: string, path: string, maxAge: int, expires: int,
                           httpOnly: bool, secure: bool, sameSite: SameSite, domain: string)

  /** setSessionCookie: an HttpOnly cookie on "/" living for the configured age; a mobile
      webview gets no Domain, any other client the resolved one. */
  function SessionCookie(config: CookieConfig, req: Request, sessionId: string, now: int): (c: Cookie)
    ensures c.name == config.name && c.value == sessionId && c.path == "/" && c.httpOnly
    ensures c.maxAge == config.maxAge && c.expires == now + config.maxAge
    ensures c.secure <==> CookieSecure(config.secure, req)
    ensures c.sameSite == NoneMode ==> !IsMobileWebView(req.userAgent)
    ensures IsMobileWebView(req.userAgent) ==> c.domain == ""
    ensures c.domain == "" || c.domain == TrimSpace(config.domain)
  {
    var domain := if IsMobileWebView(req.userAgent) then "" else ResolveCookieDomain(config.domain, req.host);
    Cookie(config.name, sessionId, "/", config.maxAge, now + config.maxAge, true,
           CookieSecure(config.secure, req), CookieSameSite(config.sameSite, req.userAgent), domain)
  }
}
