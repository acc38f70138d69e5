/** Reading the server's configuration from the environment (backend/config/config.go). An
    environment variable is its text, "" when unset; the environment as a whole is a function
    from names to those texts. */
module Config {
  import opened Common

  // ---------------------------------------------------------------------------
  // Single values
  // ---------------------------------------------------------------------------

  /** A value that is empty or whitespace only. */
  predicate Blank(value: string) {
    forall i :: 0 <= i < |value| ==> IsSpace(value[i])
  }

  /** getEnv: the trimmed value, or the default when nothing but whitespace is set. */
  function GetEnv(value: string, default: string): (r: string)
    ensures Blank(value) ==> r == default
    ensures !Blank(value) ==> r != "" && Trimmed(r) && r == TrimSpace(value)
  {
    TrimSpaceIsTrimmed(value);
    var trimmed := TrimSpace(value);
    if trimmed != "" then trimmed else default
  }

  /** Feeding getEnv a value it returned gives that value again. */
  lemma GetEnvFixesItsResult(value: string, default: string)
    requires !Blank(value)
    ensures GetEnv(GetEnv(value, default), default) == GetEnv(value, default)
  {
    TrimSpaceIdempotent(value);
  }

  /** strconv.ParseBool: the spellings Go accepts, None for anything else. */
  function ParseBool(s: string): (r: Option<bool>)
    ensures r.Some? ==> |s| >= 1 && (s[0] in "1tT" <==> r.value)
  {
    if s == "1" || s == "t" || s == "T" || s == "TRUE" || s == "true" || s == "True" then Some(true)
    else if s == "0" || s == "f" || s == "F" || s == "FALSE" || s == "false" || s == "False" then Some(false)
    else None
  }

  /** getEnvAsBool: the parsed value, the default when the value is blank or not a boolean. */
  function GetEnvAsBool(value: string, default: bool): (r: bool)
    ensures Blank(value) || ParseBool(TrimSpace(value)).None? ==> r == default
    ensures !Blank(value) && ParseBool(TrimSpace(value)).Some? ==> r == ParseBool(TrimSpace(value)).value
  {
    TrimSpaceIsTrimmed(value);
    var trimmed := TrimSpace(value);
    if trimmed != "" then
      var parsed := ParseBool(trimmed);
      if parsed.Some? then parsed.value else default
    else default
  }

  // ---------------------------------------------------------------------------
  // Lists
  // ---------------------------------------------------------------------------

  /** The trimmed parts that are not empty, in order. */
  function Cleaned(parts: seq<string>): seq<string> {
    if |parts| == 0 then []
    else
      var trimmed := TrimSpace(parts[|parts| - 1]);
      Cleaned(parts[..|parts| - 1]) + (if trimmed != "" then [trimmed] else [])
  }

  /** Cleaning keeps at most every part. */
  lemma {:induction false} CleanedLength(parts: seq<string>)
    ensures |Cleaned(parts)| <= |parts|
    ensures (forall j :: 0 <= j < |parts| ==> !Blank(parts[j])) ==> |Cleaned(parts)| == |parts|
  {
    if |parts| > 0 {
      var init := parts[..|parts| - 1];
      CleanedLength(init);
      TrimSpaceIsTrimmed(parts[|parts| - 1]);
      assert forall j :: 0 <= j < |init| ==> init[j] == parts[j];
    }
  }

  /** Every cleaned entry is a non-empty, trimmed part of the input. */
  lemma {:induction false} CleanedEntries(parts: seq<string>)
    ensures forall k :: 0 <= k < |Cleaned(parts)| ==>
              Cleaned(parts)[k] != "" && Trimmed(Cleaned(parts)[k])
              && exists j :: 0 <= j < |parts| && Cleaned(parts)[k] == TrimSpace(parts[j])
  {
    if |parts| > 0 {
      var init := parts[..|parts| - 1];
      var last := TrimSpace(parts[|parts| - 1]);
      CleanedEntries(init);
      TrimSpaceIsTrimmed(parts[|parts| - 1]);
      var c := Cleaned(parts);
      var head := Cleaned(init);
      assert c == head + (if last != "" then [last] else []);
      forall k | 0 <= k < |c|
        ensures c[k] != "" && Trimmed(c[k]) && exists j :: 0 <= j < |parts| && c[k] == TrimSpace(parts[j])
      {
        if k < |head| {
          assert c[k] == head[k];
          var j :| 0 <= j < |init| && head[k] == TrimSpace(init[j]);
          assert init[j] == parts[j];
        } else {
          assert c[k] == last;
        }
      }
    }
  }

  /** The list a variable yields: its comma-separated entries, trimmed, without the empty
      ones; the defaults when the value is blank or holds no entry. */
  function EnvList(value: string, defaults: seq<string>): seq<string> {
    var trimmed := TrimSpace(value);
    if trimmed != "" && Cleaned(Split(trimmed, ',')) != [] then Cleaned(Split(trimmed, ',')) else defaults
  }

  /** The loop of getEnvAsList: each part trimmed, the empty ones dropped. */
  method CleanParts(parts: seq<string>) returns (results: seq<string>)
    ensures results == Cleaned(parts)
  {
    results := [];
    var k := 0;
    while k < |parts|
      invariant 0 <= k <= |parts|
      invariant results == Cleaned(parts[..k])
    {
      assert parts[..k + 1][..k] == parts[..k];
      var part := TrimSpace(parts[k]);
      if part != "" {
        results := results + [part];
      }
      k := k + 1;
    }
    assert parts[..k] == parts;
  }

  /** getEnvAsList */
  method GetEnvAsList(value: string, defaults: seq<string>) returns (r: seq<string>)
    ensures r == EnvList(value, defaults)
  {
    var trimmed := TrimSpace(value);
    if trimmed != "" {
      var results := CleanParts(Split(trimmed, ','));
      if |results| > 0 {
        return results;
      }
    }
    return defaults;
  }

  /** A list from the environment holds no empty entry as long as the defaults hold none,
      and an entry read from the variable is trimmed and free of commas. */
  lemma EnvListEntries(value: string, defaults: seq<string>)
    requires forall k :: 0 <= k < |defaults| ==> defaults[k] != ""
    ensures forall k :: 0 <= k < |EnvList(value, defaults)| ==> EnvList(value, defaults)[k] != ""
    ensures EnvList(value, defaults) != defaults ==>
              forall k :: 0 <= k < |EnvList(value, defaults)| ==>
                Trimmed(EnvList(value, defaults)[k]) && ',' !in EnvList(value, defaults)[k]
  {
    var trimmed := TrimSpace(value);
    var parts := Split(trimmed, ',');
    CleanedEntries(parts);
    SplitPartsFree(trimmed, ',');
    forall k | 0 <= k < |Cleaned(parts)|
      ensures ',' !in Cleaned(parts)[k]
    {
      var j :| 0 <= j < |parts| && Cleaned(parts)[k] == TrimSpace(parts[j]);
      TrimSpaceInside(parts[j]);
    }
  }

  /** TrimSpace only cuts characters away, so it adds none. */
  lemma TrimSpaceInside(s: string)
    ensures forall c :: c in TrimSpace(s) ==> c in s
  {
    var l := TrimLeft(s);
    assert forall c :: c in l ==> c in s;
    assert forall c :: c in TrimRight(l) ==> c in l;
  }

  // ---------------------------------------------------------------------------
  // Normalisers
  // ---------------------------------------------------------------------------

  /** The port when none is configured. */
  const DefaultPort: string := ":8080"

  /** normalizePort: a blank value is the default port; a ':' is put in front when missing. */
  function NormalizePort(port: string): (r: string)
    ensures |r| >= 1 && r[0] == ':' && Trimmed(r)
    ensures Blank(port) ==> r == DefaultPort
    ensures !Blank(port) ==> r[1..] == TrimSpace(port) || r == TrimSpace(port)
  {
    TrimSpaceIsTrimmed(port);
    var trimmed := TrimSpace(port);
    if trimmed == "" then DefaultPort
    else if HasPrefix(trimmed, ":") then trimmed
    else ":" + trimmed
  }

  /** Normalising a normalised port changes nothing. */
  lemma NormalizePortIdempotent(port: string)
    ensures NormalizePort(NormalizePort(port)) == NormalizePort(port)
  {
    var r := NormalizePort(port);
    TrimSpaceFixesTrimmed(r);
  }

  /** normalizeSameSite: "strict" and "none" in any case become "Strict" and "None";
      everything else, "lax" included, is "Lax". */
  function NormalizeSameSite(value: string): (r: string)
    ensures r == "Strict" || r == "None" || r == "Lax"
    ensures r == "Strict" <==> ToLower(TrimSpace(value)) == "strict"
    ensures r == "None" <==> ToLower(TrimSpace(value)) == "none"
  {
    var v := ToLower(TrimSpace(value));
    if v == "strict" then "Strict" else if v == "none" then "None" else "Lax"
  }

  /** Each of the three normalised spellings is its own normal form. */
  lemma SameSiteSpellingFixed(w: string)
    requires w == "Strict" || w == "None" || w == "Lax"
    ensures NormalizeSameSite(w) == w
  {
    assert Trimmed(w) by {
      assert !IsSpace(w[0]) && !IsSpace(w[|w| - 1]);
    }
    TrimSpaceFixesTrimmed(w);
    var lower := ToLower(w);
    if w == "Strict" {
      assert lower == "strict" by {
        assert |lower| == 6;
        assert lower[0] == 's' && lower[1] == 't' && lower[2] == 'r';
        assert lower[3] == 'i' && lower[4] == 'c' && lower[5] == 't';
      }
    } else if w == "None" {
      assert lower == "none" by {
        assert |lower| == 4;
        assert lower[0] == 'n' && lower[1] == 'o' && lower[2] == 'n' && lower[3] == 'e';
      }
    } else {
      assert lower != "strict" && lower != "none" by {
        assert |lower| == 3;
      }
    }
  }

  /** Normalising a normalised SameSite value changes nothing. */
  lemma NormalizeSameSiteIdempotent(value: string)
    ensures NormalizeSameSite(NormalizeSameSite(value)) == NormalizeSameSite(value)
  {
    SameSiteSpellingFixed(NormalizeSameSite(value));
  }

  // ---------------------------------------------------------------------------
  // GetConfig
  // ---------------------------------------------------------------------------

  /** The origins allowed outside production. */
  const DevelopmentOrigins: seq<string> := ["http://localhost:5173", "http://localhost:3000", "http://localhost:80",
                                            "capacitor://localhost", "https://localhost", "http://localhost"]

  /** The one origin allowed in production, and its cookie domain. */
  const ProductionOrigin: string := "https://poker.iamwsll.cn"
  const ProductionDomain: string := "poker.iamwsll.cn"

  /** The server and session settings GetConfig derives from the environment. */
  datatype Settings = Settings(
    port: string,
    allowedOrigins: seq<string>,
    cookieDomain: string,
    cookieSecure: bool,
    cookieSameSite: string,
    databasePath: string,
    cookieName: string)

  /** GetConfig, for the settings that are strings, lists and booleans. */
  function GetConfig(env: string -> string): (s: Settings)
    ensures |s.port| >= 1 && s.port[0] == ':'
    ensures s.cookieSameSite in {"Strict", "None", "Lax"}
    ensures s.cookieName != "" && s.databasePath != ""
  {
    var appEnv := GetEnv(env("APP_ENV"), "development");
    var production := appEnv == "production";
    var defaultOrigins := if production then [ProductionOrigin] else DevelopmentOrigins;
    var domain := GetEnv(env("SERVER_COOKIE_DOMAIN"), "");
    Settings(
      NormalizePort(GetEnv(env("SERVER_PORT"), DefaultPort)),
      EnvList(env("SERVER_ALLOWED_ORIGINS"), defaultOrigins),
      if production && domain == "" then ProductionDomain else domain,
      GetEnvAsBool(env("SERVER_COOKIE_SECURE"), production),
      NormalizeSameSite(GetEnv(env("SERVER_COOKIE_SAME_SITE"), "Lax")),
      GetEnv(env("DATABASE_PATH"), "./database.db"),
      GetEnv(env("SESSION_COOKIE_NAME"), "poker_session"))
  }

  /** Every allowed origin is a non-empty string, whether it comes from the environment or
      from the defaults. */
  lemma AllowedOriginsNonEmpty(env: string -> string)
    ensures var origins := GetConfig(env).allowedOrigins;
            forall k :: 0 <= k < |origins| ==> origins[k] != ""
  {
    var production := GetEnv(env("APP_ENV"), "development") == "production";
    var defaultOrigins := if production then [ProductionOrigin] else DevelopmentOrigins;
    DefaultOriginsNonEmpty(production);
    EnvListEntries(env("SERVER_ALLOWED_ORIGINS"), defaultOrigins);
    assert GetConfig(env).allowedOrigins == EnvList(env("SERVER_ALLOWED_ORIGINS"), defaultOrigins);
  }

  lemma DefaultOriginsNonEmpty(production: bool)
    ensures var origins := if production then [ProductionOrigin] else DevelopmentOrigins;
            forall k :: 0 <= k < |origins| ==> origins[k] != ""
  {
    assert forall k :: 0 <= k < |DevelopmentOrigins| ==> |DevelopmentOrigins[k]| >= 16;
  }

  /** In production the cookie domain is never empty, and cookies are secure unless the
      environment says otherwise. */
  lemma GetConfigProduction(env: string -> string)
    requires GetEnv(env("APP_ENV"), "development") == "production"
    ensures GetConfig(env).cookieDomain != ""
    ensures Blank(env("SERVER_COOKIE_DOMAIN")) ==> GetConfig(env).cookieDomain == ProductionDomain
    ensures Blank(env("SERVER_COOKIE_SECURE")) ==> GetConfig(env).cookieSecure
  {
  }
}
