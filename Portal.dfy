/** How the `/location` and `/search` commands of bot.py pick the base URL of
    the web portal, build the link they post, and check the search radius. */
module Portal {
  import opened Wrappers
  import opened Text
  import opened Config

  const DefaultPortalUrl: string := "https://web-production-f0220.up.railway.app"

  /** Python's `a or b`: the first truthy optional string, else the right operand. */
  function OrElse(a: Option<string>, b: string): (r: string)
    ensures Truthy(a) ==> r == a.value
    ensures !Truthy(a) ==> r == b
  {
    if Truthy(a) then a.value else b
  }

  /** The two steps shared by both commands after the first choice of URL:
      prefix a missing scheme, then replace an empty or placeholder URL by
      the one built from the project and service names. */
  function Normalize(u: string, env: Env): (r: string)
    ensures StartsWith(r, "http")
    // An empty URL, or one holding the 'your-app' placeholder, is replaced.
    ensures u == "" ==> r == FallbackUrl(env)
    ensures Contains(u, "your-app") ==> r == FallbackUrl(env)
    // Otherwise a URL without a scheme gets "https://" in front ...
    ensures (u != "" && !StartsWith(u, "http") && !Contains(u, "your-app")) ==> r == "https://" + u
    // ... and one with a scheme is kept as it is.
    ensures (u != "" && StartsWith(u, "http") && !Contains(u, "your-app")) ==> r == u
  {
    SchemeKeepsPlaceholder(u);
    var withScheme := if u != "" && !StartsWith(u, "http") then "https://" + u else u;
    if withScheme == "" || Contains(withScheme, "your-app") then FallbackUrl(env)
    else withScheme
  }

  /** Putting "https://" in front neither adds nor hides a 'your-app' placeholder. */
  lemma SchemeKeepsPlaceholder(u: string)
    ensures Contains("https://" + u, "your-app") <==> Contains(u, "your-app")
  {
    if Contains(u, "your-app") {
      ContainsAfterPrefix("https://", u, "your-app");
    } else {
      NotContainsSplit("https://", u, "your-app");
    }
  }

  /** The URL choice as written: RAILWAY_STATIC_URL, else RAILWAY_URL, else
      PORT, else the fixed default; the first non-empty one is normalized. */
  function PortalBaseUrlAsWritten(env: Env): (r: string)
    ensures StartsWith(r, "http")
    ensures Truthy(Getenv(env, "RAILWAY_STATIC_URL")) ==> r == Normalize(env["RAILWAY_STATIC_URL"], env)
    ensures (!Truthy(Getenv(env, "RAILWAY_STATIC_URL")) && Truthy(Getenv(env, "RAILWAY_URL")))
            ==> r == Normalize(env["RAILWAY_URL"], env)
    ensures (!Truthy(Getenv(env, "RAILWAY_STATIC_URL")) && !Truthy(Getenv(env, "RAILWAY_URL"))
             && Truthy(Getenv(env, "PORT")))
            ==> r == Normalize(env["PORT"], env)
    ensures (!Truthy(Getenv(env, "RAILWAY_STATIC_URL")) && !Truthy(Getenv(env, "RAILWAY_URL"))
             && !Truthy(Getenv(env, "PORT")))
            ==> r == DefaultPortalUrl
  {
    DefaultPortalUrlIsClean();
    var staticUrl := Getenv(env, "RAILWAY_STATIC_URL");
    var first := if Truthy(staticUrl) then staticUrl.value
                 else OrElse(Getenv(env, "RAILWAY_URL"), OrElse(Getenv(env, "PORT"), DefaultPortalUrl));
    Normalize(first, env)
  }

  /** The URL choice without the port number: RAILWAY_STATIC_URL, else
      RAILWAY_URL, else the fixed default; the first non-empty one is normalized. */
  function PortalBaseUrl(env: Env): (r: string)
    ensures StartsWith(r, "http")
    ensures Truthy(Getenv(env, "RAILWAY_STATIC_URL")) ==> r == Normalize(env["RAILWAY_STATIC_URL"], env)
    ensures (!Truthy(Getenv(env, "RAILWAY_STATIC_URL")) && Truthy(Getenv(env, "RAILWAY_URL")))
            ==> r == Normalize(env["RAILWAY_URL"], env)
    ensures (!Truthy(Getenv(env, "RAILWAY_STATIC_URL")) && !Truthy(Getenv(env, "RAILWAY_URL")))
            ==> r == DefaultPortalUrl
    ensures (Truthy(Getenv(env, "RAILWAY_STATIC_URL")) && StartsWith(env["RAILWAY_STATIC_URL"], "http")
             && !Contains(env["RAILWAY_STATIC_URL"], "your-app")) ==> r == env["RAILWAY_STATIC_URL"]
  {
    DefaultPortalUrlIsClean();
    var staticUrl := Getenv(env, "RAILWAY_STATIC_URL");
    var first := if Truthy(staticUrl) then staticUrl.value
                 else OrElse(Getenv(env, "RAILWAY_URL"), DefaultPortalUrl);
    Normalize(first, env)
  }

  lemma DefaultPortalUrlIsClean()
    ensures StartsWith(DefaultPortalUrl, "http") && !Contains(DefaultPortalUrl, "your-app")
  {
    DefaultPortalUrlIsHttp();
    DefaultPortalUrlHasNoPlaceholder();
  }

  lemma DefaultPortalUrlIsHttp()
    ensures StartsWith(DefaultPortalUrl, "http")
  {
    var u := DefaultPortalUrl;
    assert u[0] == 'h' && u[1] == 't' && u[2] == 't' && u[3] == 'p';
    assert u[..4] == "http";
  }

  lemma DefaultPortalUrlHasNoPlaceholder()
    ensures !Contains(DefaultPortalUrl, "your-app")
  {
    assert DefaultPortalUrl == "https://web-production-f0220.up.rail" + "way.app";
    ShortNotContains("way.app", "your-app");
    NotContainsSplit("https://web-production-f0220.up.rail", "way.app", "your-app");
  }

  /** As written, a set PORT (a bare number on the hosting platform) becomes the host name. */
  lemma PortBecomesHost()
    ensures PortalBaseUrlAsWritten(map["PORT" := "8080"]) == "https://8080"
  {
    var env := map["PORT" := "8080"];
    assert "RAILWAY_STATIC_URL" !in env && "RAILWAY_URL" !in env;
    var first := OrElse(Getenv(env, "RAILWAY_URL"), OrElse(Getenv(env, "PORT"), DefaultPortalUrl));
    assert first == "8080";
    assert !StartsWith(first, "http") by { assert first[0] != 'h'; }
    assert "https://" + first == "https://8080";
    NotContainsChar("https://8080", "your-app", 0);
  }

  /** Without the port fallback the same environment yields the fixed default. */
  lemma PortIgnoredWhenCorrected()
    ensures PortalBaseUrl(map["PORT" := "8080"]) == DefaultPortalUrl
  {
    DefaultPortalUrlIsClean();
  }

  /** Without the port fallback the portal URL no longer depends on PORT. */
  lemma PortalBaseUrlIgnoresPort(env: Env, port: string)
    ensures PortalBaseUrl(env["PORT" := port]) == PortalBaseUrl(env)
  {
    var env' := env["PORT" := port];
    assert Getenv(env', "RAILWAY_STATIC_URL") == Getenv(env, "RAILWAY_STATIC_URL");
    assert Getenv(env', "RAILWAY_URL") == Getenv(env, "RAILWAY_URL");
    assert GetenvOr(env', "RAILWAY_PROJECT_NAME", "web-production") == GetenvOr(env, "RAILWAY_PROJECT_NAME", "web-production");
    assert GetenvOr(env', "RAILWAY_SERVICE_NAME", "f0220") == GetenvOr(env, "RAILWAY_SERVICE_NAME", "f0220");
  }

  /** The link posted by `/location`. */
  function SessionLink(base: string, sessionId: string, userId: string, channelId: string): (r: string)
    ensures StartsWith(r, base)
  {
    base + "?session=" + sessionId + "&user=" + userId + "&channel=" + channelId
  }

  /** `/search` refuses a radius outside 1..50 miles, the same range as config.py's validator. */
  function SearchRadiusRejected(radius: int): (r: bool)
    ensures r <==> !ValidRadius(radius)
  {
    radius < 1 || radius > 50
  }
}
