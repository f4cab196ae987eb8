/**
 * Backend endpoint configuration (src/config.js). The build-time environment
 * is a record of optional strings; JavaScript's `||` and `if (x)` treat the
 * empty string as unset. The WHATWG `URL` constructor is a parameter: it
 * maps a string to its parsed protocol and host, or to `None` where the
 * constructor throws a TypeError.
 */
module Config {
  import opened Wrappers

  /** `process.env`: REACT_APP_API_URL, REACT_APP_WS_URL and NODE_ENV. */
  datatype Env = Env(apiUrl: Option<string>, wsUrl: Option<string>, nodeEnv: Option<string>)

  /** The parts of a parsed URL (or of `window.location`) that are read: `protocol` keeps its colon, `host` its port. */
  datatype Url = Url(protocol: string, host: string)

  /** `new URL(s)`: `None` when it throws. */
  type UrlParser = string -> Option<Url>

  /** What `new URL(...)` threw, with the input that made it throw. */
  datatype ConfigError = InvalidUrl(input: string)

  const DefaultApiUrl := "http://localhost:5000"
  const DefaultWsUrl := "ws://localhost:5000"
  const DefaultEnvironment := "development"

  /** A variable the code treats as present: set and not empty. */
  predicate IsSet(v: Option<string>) {
    v.Some? && v.value != ""
  }

  /** `v || fallback`. */
  function OrElse(v: Option<string>, fallback: string): (r: string)
    ensures IsSet(v) ==> r == v.value
    ensures !IsSet(v) ==> r == fallback
  {
    if IsSet(v) then v.value else fallback
  }

  function GetApiUrl(env: Env): (r: string)
    ensures r != ""
    ensures IsSet(env.apiUrl) ==> r == env.apiUrl.value
    ensures !IsSet(env.apiUrl) ==> r == DefaultApiUrl
  {
    OrElse(env.apiUrl, DefaultApiUrl)
  }

  function GetEnvironment(env: Env): (r: string)
    ensures r != ""
    ensures IsSet(env.nodeEnv) ==> r == env.nodeEnv.value
    ensures !IsSet(env.nodeEnv) ==> r == DefaultEnvironment
  {
    OrElse(env.nodeEnv, DefaultEnvironment)
  }

  /** `NODE_ENV === 'production'`: a strict comparison, so unset is not production. */
  predicate IsProduction(env: Env) {
    env.nodeEnv == Some("production")
  }

  /** The WebSocket scheme for an HTTP protocol: secure exactly for `https:`. */
  function WsScheme(protocol: string): (r: string)
    ensures r == "wss:" || r == "ws:"
    ensures r == "wss:" <==> protocol == "https:"
  {
    if protocol == "https:" then "wss:" else "ws:"
  }

  /** `${protocol}//${host}` with the protocol mapped to its WebSocket scheme. */
  function WsOrigin(u: Url): (r: string)
    ensures HasWsScheme(r)
  {
    var r := WsScheme(u.protocol) + "//" + u.host;
    assert r[..5] == WsScheme(u.protocol) + "//" || r[..6] == WsScheme(u.protocol) + "//";
    r
  }

  /** `s` starts with `ws://` or `wss://`. */
  predicate HasWsScheme(s: string) {
    (|s| >= 5 && s[..5] == "ws://") || (|s| >= 6 && s[..6] == "wss://")
  }

  /**
   * `getWsUrl`: the explicit override, else the API URL's origin, else the
   * page's origin in production, else the local default. The API URL is
   * parsed outside any `try`, so one that does not parse makes it throw.
   */
  function GetWsUrl(env: Env, location: Url, parse: UrlParser): (r: Result<string, ConfigError>)
    ensures !IsSet(env.wsUrl) && r.Success? ==> HasWsScheme(r.value)
  {
    if IsSet(env.wsUrl) then Success(env.wsUrl.value)
    else if IsSet(env.apiUrl) then
      match parse(env.apiUrl.value)
      case Some(u) => Success(WsOrigin(u))
      case None => Failure(InvalidUrl(env.apiUrl.value))
    else if IsProduction(env) then Success(WsOrigin(location))
    else Success(DefaultWsUrl)
  }

  /** Each rung of the priority chain, given that the rungs above it do not apply. */
  lemma WsUrlPriority(env: Env, location: Url, parse: UrlParser)
    ensures IsSet(env.wsUrl) ==> GetWsUrl(env, location, parse) == Success(env.wsUrl.value)
    ensures !IsSet(env.wsUrl) && IsSet(env.apiUrl) ==>
      GetWsUrl(env, location, parse) ==
        if parse(env.apiUrl.value).Some? then Success(WsOrigin(parse(env.apiUrl.value).value))
        else Failure(InvalidUrl(env.apiUrl.value))
    ensures !IsSet(env.wsUrl) && !IsSet(env.apiUrl) && IsProduction(env) ==>
      GetWsUrl(env, location, parse) == Success(WsOrigin(location))
    ensures !IsSet(env.wsUrl) && !IsSet(env.apiUrl) && !IsProduction(env) ==>
      GetWsUrl(env, location, parse) == Success(DefaultWsUrl)
  {
  }

  /** `getWsUrl` throws only for an API URL that is used (no override) and does not parse. */
  lemma WsUrlFailsOnlyOnBadApiUrl(env: Env, location: Url, parse: UrlParser)
    ensures GetWsUrl(env, location, parse).Failure? <==>
      !IsSet(env.wsUrl) && IsSet(env.apiUrl) && parse(env.apiUrl.value).None?
    ensures GetWsUrl(env, location, parse).Failure? ==>
      GetWsUrl(env, location, parse).error == InvalidUrl(GetApiUrl(env))
  {
  }

  /** The page location matters only in production with neither variable set. */
  lemma WsUrlIgnoresLocation(env: Env, l1: Url, l2: Url, parse: UrlParser)
    requires IsSet(env.wsUrl) || IsSet(env.apiUrl) || !IsProduction(env)
    ensures GetWsUrl(env, l1, parse) == GetWsUrl(env, l2, parse)
  {
  }

  /** A derived URL keeps the source's host and is secure exactly when the source is `https:`. */
  lemma DerivedWsUrlShape(u: Url)
    ensures WsOrigin(u) == (if u.protocol == "https:" then "wss://" else "ws://") + u.host
  {
    if u.protocol == "https:" {
      assert WsOrigin(u) == "wss:" + "//" + u.host;
    } else {
      assert WsOrigin(u) == "ws:" + "//" + u.host;
    }
  }

  /** The result of `validateUrls`. */
  datatype UrlCheck = UrlCheck(isValid: bool, errors: seq<string>)

  /** The message `validateUrls` records for an API URL that does not parse. */
  function ApiUrlErrors(env: Env, parse: UrlParser): seq<string> {
    if parse(GetApiUrl(env)).None? then ["Invalid API URL: " + GetApiUrl(env)] else []
  }

  /** The message `validateUrls` records for a WebSocket URL that does not parse. */
  function WsUrlErrors(wsUrl: string, parse: UrlParser): seq<string> {
    if parse(wsUrl).None? then ["Invalid WebSocket URL: " + wsUrl] else []
  }

  /**
   * `validateUrls`: resolves both URLs (resolving the WebSocket URL can
   * throw, outside the `try` blocks), then tries to parse each one and
   * collects a message for each that does not parse, API URL first.
   */
  method ValidateUrls(env: Env, location: Url, parse: UrlParser) returns (r: Result<UrlCheck, ConfigError>)
    ensures r.Failure? <==> GetWsUrl(env, location, parse).Failure?
    ensures r.Failure? ==> r.error == GetWsUrl(env, location, parse).error
    ensures r.Success? ==> (r.value.isValid <==> r.value.errors == [])
    ensures r.Success? ==> |r.value.errors| <= 2
    ensures r.Success? ==> r.value.errors == ApiUrlErrors(env, parse) + WsUrlErrors(GetWsUrl(env, location, parse).value, parse)
  {
    var apiUrl := GetApiUrl(env);
    var resolved := GetWsUrl(env, location, parse);
    if resolved.Failure? {
      return Failure(resolved.error);
    }
    var wsUrl := resolved.value;
    var errors: seq<string> := [];
    if parse(apiUrl).None? {
      errors := errors + ["Invalid API URL: " + apiUrl];
    }
    if parse(wsUrl).None? {
      errors := errors + ["Invalid WebSocket URL: " + wsUrl];
    }
    r := Success(UrlCheck(|errors| == 0, errors));
  }

  /**
   * With no override and an API URL set, the API URL was already parsed to
   * derive the WebSocket URL, so `validateUrls` either throws or does not
   * report the API URL as invalid.
   */
  lemma NoApiErrorWhenWsDerivedFromApi(env: Env, location: Url, parse: UrlParser)
    requires !IsSet(env.wsUrl) && IsSet(env.apiUrl)
    ensures GetWsUrl(env, location, parse).Success? ==> ApiUrlErrors(env, parse) == []
  {
  }
}
