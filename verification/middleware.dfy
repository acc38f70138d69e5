/** The HTTP middlewares (backend/middlewares/auth.go, backend/middlewares/cors.go): where the
    session id comes from, what a session lookup lets through, the admin gate, and the CORS
    decision. The session table is the one piece of state these touch. */
module Middlewares {
  import opened Common
  import Admin

  type UserId = nat

  // ---------------------------------------------------------------------------
  // Session id
  // ---------------------------------------------------------------------------

  /** The three places a session id can come from: the Authorization header ("" when
      absent), the session_id query parameter ("" when absent) and the session cookie (None
      when the request carries none). */
  datatype Credentials = Credentials(authorization: string, query: string, cookie: Option<string>)

  /** The header's session id: a "Bearer " prefix is dropped when something follows it;
      any other header, "Bearer " alone included, is taken verbatim. The prefix is ASCII, so
      comparing characters is comparing bytes. */
  function FromAuthorization(header: string): (id: string)
    ensures |header| > 7 && header[..7] == "Bearer " ==> id == header[7..] && id != ""
    ensures !(|header| > 7 && header[..7] == "Bearer ") ==> id == header
    ensures id == "" <==> header == ""
  {
    if |header| > 7 && header[..7] == "Bearer " then header[7..] else header
  }

  /** The session id AuthMiddleware settles on, None when it answers 401 at once. */
  function SessionIdFrom(c: Credentials): Option<string> {
    var fromHeader := if c.authorization != "" then FromAuthorization(c.authorization) else "";
    var id := if fromHeader == "" then c.query else fromHeader;
    if id != "" then Some(id)
    else if c.cookie.Some? && c.cookie.value != "" then Some(c.cookie.value)
    else None
  }

  /** The header wins over the query parameter, which wins over the cookie; an id is never
      empty, and there is none only when all three are missing or empty. */
  lemma SessionIdPrecedence(c: Credentials)
    ensures c.authorization != "" ==> SessionIdFrom(c) == Some(FromAuthorization(c.authorization))
    ensures c.authorization == "" && c.query != "" ==> SessionIdFrom(c) == Some(c.query)
    ensures c.authorization == "" && c.query == "" ==>
              SessionIdFrom(c) == (if c.cookie.Some? && c.cookie.value != "" then c.cookie else None)
    ensures SessionIdFrom(c).Some? ==> SessionIdFrom(c).value != ""
    ensures SessionIdFrom(c).None? <==>
              c.authorization == "" && c.query == "" && (c.cookie.None? || c.cookie.value == "")
  {
  }

  // ---------------------------------------------------------------------------
  // Sessions
  // ---------------------------------------------------------------------------

  datatype Session = Session(user: UserId, expiresAt: int)

  /** Session.IsExpired: the clock is strictly past the expiry. */
  predicate Expired(s: Session, now: int) {
    now > s.expiresAt
  }

  /** Why AuthMiddleware answers 401. */
  datatype AuthFailure = NoSessionId | UnknownSession | SessionExpired | UnknownUser

  class SessionTable {
    /** Session id to session. */
    var sessions: map<string, Session>

    constructor (sessions: map<string, Session>)
      ensures this.sessions == sessions
    {
      this.sessions := sessions;
    }

    /** AuthMiddleware: the session the request names must exist, be unexpired and belong to
        an existing user, whose record goes into the request context. An expired session is
        deleted on the way out; nothing else changes the table. */
    method Authenticate(c: Credentials, users: map<UserId, Admin.User>, now: int)
      returns (r: Result<Admin.User, AuthFailure>)
      modifies this`sessions
      ensures SessionIdFrom(c).None? ==> r == Err(NoSessionId) && sessions == old(sessions)
      ensures SessionIdFrom(c).Some? ==>
                var id := SessionIdFrom(c).value;
                && (id !in old(sessions) ==> r == Err(UnknownSession) && sessions == old(sessions))
                && (id in old(sessions) && Expired(old(sessions)[id], now) ==>
                      r == Err(SessionExpired) && sessions == old(sessions) - {id})
                && (id in old(sessions) && !Expired(old(sessions)[id], now) ==>
                      && sessions == old(sessions)
                      && (old(sessions)[id].user in users ==> r == Ok(users[old(sessions)[id].user]))
                      && (old(sessions)[id].user !in users ==> r == Err(UnknownUser)))
    {
      var id := SessionIdFrom(c);
      if id.None? {
        return Err(NoSessionId);
      }
      if id.value !in sessions {
        return Err(UnknownSession);
      }
      var session := sessions[id.value];
      if Expired(session, now) {
        sessions := sessions - {id.value};
        return Err(SessionExpired);
      }
      if session.user !in users {
        return Err(UnknownUser);
      }
      r := Ok(users[session.user]);
    }
  }

  // ---------------------------------------------------------------------------
  // AdminMiddleware
  // ---------------------------------------------------------------------------

  /** What the request context holds under "user": nothing, a user record, or a value of
      another type. */
  datatype ContextUser = NoUser | UserValue(user: Admin.User) | OtherValue

  /** AdminMiddleware: passes only a user record whose role is exactly "admin"; every other
      case is answered 403. */
  function AdminAllows(ctx: ContextUser): (pass: bool)
    ensures pass <==> ctx.UserValue? && ctx.user.role == "admin"
  {
    match ctx
    case NoUser => false
    case OtherValue => false
    case UserValue(u) => u.role == "admin"
  }

  // ---------------------------------------------------------------------------
  // CORSMiddleware
  // ---------------------------------------------------------------------------

  /** The decision the two loops reach: with "*" listed any non-empty origin passes;
      otherwise the origin must be listed as it is. */
  predicate OriginAllowed(allowed: seq<string>, origin: string) {
    ("*" in allowed && origin != "") || origin in allowed
  }

  /** The headers written for an allowed origin. */
  const AllowHeaders: string := "Content-Type, Content-Length, Accept-Encoding, X-CSRF-Token, Authorization, accept, origin, Cache-Control, X-Requested-With"
  const AllowMethods: string := "POST, OPTIONS, GET, PUT, DELETE"

  function CorsHeaders(allowed: bool, origin: string): seq<(string, string)> {
    if !allowed then []
    else
      (if origin != "" then [("Access-Control-Allow-Origin", origin)] else [])
      + [("Access-Control-Allow-Credentials", "true"),
         ("Access-Control-Allow-Headers", AllowHeaders),
         ("Access-Control-Allow-Methods", AllowMethods)]
  }

  /** CORSMiddleware: the headers it writes, and Some(204) when it ends the request there (a
      preflight, allowed or not) or None when the request goes on. */
  method Cors(allowedOrigins: seq<string>, origin: string, httpMethod: string)
    returns (headers: seq<(string, string)>, abortStatus: Option<int>)
    ensures headers == CorsHeaders(OriginAllowed(allowedOrigins, origin), origin)
    ensures abortStatus == (if httpMethod == "OPTIONS" then Some(204) else None)
  {
    var allowAll := false;
    var i := 0;
    while i < |allowedOrigins|
      invariant 0 <= i <= |allowedOrigins|
      invariant allowAll <==> "*" in allowedOrigins[..i]
    {
      if allowedOrigins[i] == "*" {
        allowAll := true;
        assert "*" in allowedOrigins;
        break;
      }
      assert allowedOrigins[..i + 1] == allowedOrigins[..i] + [allowedOrigins[i]];
      i := i + 1;
    }
    assert allowAll <==> "*" in allowedOrigins by {
      if !allowAll {
        assert allowedOrigins[..i] == allowedOrigins;
      }
    }
    var allowed := false;
    if allowAll && origin != "" {
      allowed := true;
    } else {
      var j := 0;
      while j < |allowedOrigins|
        invariant 0 <= j <= |allowedOrigins|
        invariant allowed <==> origin in allowedOrigins[..j]
      {
        if origin == allowedOrigins[j] {
          allowed := true;
          assert origin in allowedOrigins;
          break;
        }
        assert allowedOrigins[..j + 1] == allowedOrigins[..j] + [allowedOrigins[j]];
        j := j + 1;
      }
      assert allowed <==> origin in allowedOrigins by {
        if !allowed {
          assert allowedOrigins[..j] == allowedOrigins;
        }
      }
    }
    headers := [];
    if allowed {
      if origin != "" {
        headers := headers + [("Access-Control-Allow-Origin", origin)];
      }
      headers := headers + [("Access-Control-Allow-Credentials", "true"),
                            ("Access-Control-Allow-Headers", AllowHeaders),
                            ("Access-Control-Allow-Methods", AllowMethods)];
    }
    if httpMethod == "OPTIONS" {
      return headers, Some(204);
    }
    return headers, None;
  }

  /** The Allow-Origin header, when written, echoes a non-empty request origin, so a
      wildcard in the list is never sent back as "*" to another origin; headers are written
      only for an allowed origin, and an empty origin is allowed only when "" is listed. */
  lemma CorsEchoesOrigin(allowedOrigins: seq<string>, origin: string)
    ensures var headers := CorsHeaders(OriginAllowed(allowedOrigins, origin), origin);
            && (forall k :: 0 <= k < |headers| && headers[k].0 == "Access-Control-Allow-Origin" ==>
                  headers[k].1 == origin && origin != "")
            && (headers != [] <==> OriginAllowed(allowedOrigins, origin))
    ensures OriginAllowed(allowedOrigins, "") <==> "" in allowedOrigins
  {
    var headers := CorsHeaders(OriginAllowed(allowedOrigins, origin), origin);
    if OriginAllowed(allowedOrigins, origin) && origin == "" {
      assert headers[0].0 == "Access-Control-Allow-Credentials";
      assert headers[1].0 == "Access-Control-Allow-Headers";
      assert headers[2].0 == "Access-Control-Allow-Methods";
    } else if OriginAllowed(allowedOrigins, origin) {
      assert headers[1].0 == "Access-Control-Allow-Credentials";
      assert headers[2].0 == "Access-Control-Allow-Headers";
      assert headers[3].0 == "Access-Control-Allow-Methods";
    }
  }
}
