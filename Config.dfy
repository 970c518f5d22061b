/** config.py: coordinate and radius validation and the Railway URL with its
    fallbacks. The process environment is a map from variable name to value;
    a name absent from the map is an unset variable. */
module Config {
  import opened Wrappers
  import opened Text

  type Env = map<string, string>

  const MinLatitude: real := -90.0
  const MaxLatitude: real := 90.0
  const MinLongitude: real := -180.0
  const MaxLongitude: real := 180.0
  const MinRadius: int := 1
  const MaxRadius: int := 50

  /** `os.getenv(name)`: None when unset, the value (possibly "") otherwise. */
  function Getenv(env: Env, name: string): (r: Option<string>)
    ensures r.Some? <==> name in env
    ensures r.Some? ==> r.value == env[name]
  {
    if name in env then Some(env[name]) else None
  }

  /** `os.getenv(name, default)`: the default replaces only an UNSET variable, not an empty one. */
  function GetenvOr(env: Env, name: string, default: string): (r: string)
    ensures name in env ==> r == env[name]
    ensures name !in env ==> r == default
  {
    Getenv(env, name).GetOr(default)
  }

  /** Python truthiness of an optional string: neither None nor "". */
  predicate Truthy(v: Option<string>) {
    v.Some? && v.value != ""
  }

  function ValidCoordinates(lat: real, lng: real): (r: bool)
    ensures r <==> -90.0 <= lat <= 90.0 && -180.0 <= lng <= 180.0
  {
    MinLatitude <= lat <= MaxLatitude && MinLongitude <= lng <= MaxLongitude
  }

  function ValidRadius(radius: int): (r: bool)
    ensures r <==> 1 <= radius <= 50
  {
    MinRadius <= radius <= MaxRadius
  }

  /** Both bounds of both coordinates are accepted; one step past a bound is not. */
  lemma CoordinateBoundsInclusive(eps: real)
    requires eps > 0.0
    ensures ValidCoordinates(-90.0, -180.0) && ValidCoordinates(90.0, 180.0)
    ensures !ValidCoordinates(90.0 + eps, 0.0) && !ValidCoordinates(-90.0 - eps, 0.0)
    ensures !ValidCoordinates(0.0, 180.0 + eps) && !ValidCoordinates(0.0, -180.0 - eps)
  {
  }

  /** `FALLBACK_URL`, built at import time from the project and service names. */
  function FallbackUrl(env: Env): (r: string) {
    var project := GetenvOr(env, "RAILWAY_PROJECT_NAME", "web-production");
    var service := GetenvOr(env, "RAILWAY_SERVICE_NAME", "f0220");
    "https://" + project + "-" + service + ".up.railway.app"
  }

  lemma DefaultFallbackUrl(env: Env)
    requires "RAILWAY_PROJECT_NAME" !in env && "RAILWAY_SERVICE_NAME" !in env
    ensures FallbackUrl(env) == "https://web-production-f0220.up.railway.app"
  {
  }

  function RailwayUrl(env: Env): (r: string)
    // A non-empty static URL wins unchanged, whatever it contains.
    ensures Truthy(Getenv(env, "RAILWAY_STATIC_URL")) ==> r == env["RAILWAY_STATIC_URL"]
    // Otherwise RAILWAY_URL, only when non-empty and not the 'your-app' placeholder.
    ensures (!Truthy(Getenv(env, "RAILWAY_STATIC_URL")) && Truthy(Getenv(env, "RAILWAY_URL"))
             && !Contains(env["RAILWAY_URL"], "your-app")) ==> r == env["RAILWAY_URL"]
    // Every remaining case is the constructed fallback.
    ensures (!Truthy(Getenv(env, "RAILWAY_STATIC_URL"))
             && !(Truthy(Getenv(env, "RAILWAY_URL")) && !Contains(env["RAILWAY_URL"], "your-app")))
            ==> r == FallbackUrl(env)
    ensures r != ""
  {
    var staticUrl := Getenv(env, "RAILWAY_STATIC_URL");
    var url := Getenv(env, "RAILWAY_URL");
    if Truthy(staticUrl) then staticUrl.value
    else if Truthy(url) && !Contains(url.value, "your-app") then url.value
    else FallbackUrl(env)
  }
}
