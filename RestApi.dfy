/**
 * `async_get_discovery_info` of rest_api.py as a decision over the replies
 * of the remote instance. The HTTP session is a function from a request to
 * its outcome, and the SHA-256 hex digest is a function parameter, so the
 * model says which endpoints are asked, in which order, and what the
 * replies make of the result.
 */
module RestApi {
  import opened Wrappers
  import opened Text

  /** A JSON value inside an object: a string, a boolean, or any other value by its `str()` text. */
  datatype Json = JString(s: string) | JBool(b: bool) | JOther(text: string)

  /** The body of a reply as `resp.json()` sees it. */
  datatype Body =
    | Unparsable                          // `resp.json()` raises
    | Object(fields: map<string, Json>)   // a JSON object
    | Array                               // a JSON array
    | Text(content: string)               // a JSON string
    | Scalar                              // a JSON number, boolean or null

  /** What one GET gives back: a status and a body, or an exception of the session. */
  datatype HttpOutcome = Reply(status: int, body: Body) | Failed

  datatype Request = Request(url: string, authorization: string)

  /**
   * `InvalidAuth` and `CannotConnect` are the errors the function raises on
   * purpose; `Unexpected` is an exception it lets escape (a `TypeError` or
   * `AttributeError` on a body of the wrong JSON type).
   */
  datatype DiscoveryError = InvalidAuth | CannotConnect | Unexpected

  /** The discovery info or the error, with the requests made, in order. */
  datatype Discovery = Discovery(result: Result<map<string, Json>, DiscoveryError>, requests: seq<Request>)

  const DiscoveryPath: string := "/api/remote_homeassistant/discovery"
  const FallbackPath: string := "/api/"
  const ConfigPath: string := "/api/config"

  function Proto(secure: bool): string {
    if secure then "https" else "http"
  }

  /** `"{proto}://{host}:{port}" + path`, the three URL templates. */
  function Endpoint(secure: bool, host: string, port: int, path: string): (r: string)
    ensures IsPrefix("https://", r) <==> secure
  {
    var r := Proto(secure) + "://" + host + ":" + IntToString(port) + path;
    assert secure ==> r[..8] == "https://";
    assert !secure ==> r[4] == ':';
    r
  }

  function Authorization(token: string): string {
    "Bearer " + token
  }

  /** `str()` of a JSON value, as an f-string renders it. */
  function Display(j: Json): string {
    match j
    case JString(s) => s
    case JBool(b) => if b then "True" else "False"
    case JOther(t) => t
  }

  /** `s[:32]`: at most the first 32 characters. */
  function Head32(s: string): (r: string)
    ensures |r| == if |s| < 32 then |s| else 32
    ensures IsPrefix(r, s)
  {
    if |s| <= 32 then s else s[..32]
  }

  /** `dict.get(key, default)`. */
  function Get(m: map<string, Json>, key: string, default: Json): Json {
    if key in m then m[key] else default
  }

  /** What the first reply decides: the native info, a rejected token, or the fallback. */
  datatype NativeStep = Found(info: map<string, Json>) | Rejected | TryFallback

  /** rest_api.py lines 50-64: a 200 object with a "uuid" is the answer, a 401 stops, anything else falls back. */
  function NativeOutcome(o: HttpOutcome): NativeStep {
    match o
    case Failed => TryFallback
    case Reply(status, body) =>
      if status == 200 then
        if body.Object? && "uuid" in body.fields then Found(body.fields) else TryFallback
      else if status == 401 then Rejected
      else TryFallback
  }

  /** rest_api.py lines 71-82: the basic API reply, or why discovery stops. */
  function ApiOutcome(o: HttpOutcome): Result<Body, DiscoveryError> {
    match o
    case Failed => Err(CannotConnect)
    case Reply(status, body) =>
      if status == 401 then Err(InvalidAuth)
      else if status != 200 || body.Unparsable? then Err(CannotConnect)
      else Ok(body)
  }

  /** rest_api.py lines 86-93: the config reply, or an empty object when it fails. */
  function ConfigOutcome(o: HttpOutcome): Body {
    match o
    case Failed => Object(map[])
    case Reply(status, body) =>
      if status != 200 || body.Unparsable? then Object(map[]) else body
  }

  /** The 32-character identifier derived from host, port and location name. */
  function PseudoUuid(host: string, port: int, location: Json, sha256Hex: string -> string): string {
    Head32(sha256Hex(host + ":" + IntToString(port) + ":" + Display(location)))
  }

  /** rest_api.py lines 105-119: the discovery info built from the config object. */
  function FallbackInfo(host: string, port: int, config: map<string, Json>, sha256Hex: string -> string): map<string, Json> {
    var location := Get(config, "location_name", JString("Remote HA at " + host));
    map[
      "uuid" := JString(PseudoUuid(host, port, location, sha256Hex)),
      "location_name" := location,
      "ha_version" := Get(config, "version", JString("unknown")),
      "installation_type" := JString("unknown"),
      "fallback_discovery" := JBool(true)
    ]
  }

  /**
   * `async_get_discovery_info`: ask the custom discovery endpoint, then fall
   * back to the basic API and the config endpoints. Every request carries
   * the bearer token and uses the scheme `secure` chooses.
   */
  function GetDiscoveryInfo(host: string, port: int, secure: bool, token: string,
                            server: Request -> HttpOutcome, sha256Hex: string -> string): (r: Discovery)
    ensures 1 <= |r.requests| <= 3
    ensures forall q :: q in r.requests ==> q.authorization == Authorization(token)
    ensures forall q :: q in r.requests ==> (IsPrefix("https://", q.url) <==> secure)
    ensures r.requests[0].url == Endpoint(secure, host, port, DiscoveryPath)
    ensures |r.requests| >= 2 ==> r.requests[1].url == Endpoint(secure, host, port, FallbackPath)
    ensures |r.requests| == 3 ==> r.requests[2].url == Endpoint(secure, host, port, ConfigPath)
  {
    var auth := Authorization(token);
    var native := Request(Endpoint(secure, host, port, DiscoveryPath), auth);
    match NativeOutcome(server(native))
    case Found(info) => Discovery(Ok(info), [native])
    case Rejected => Discovery(Err(InvalidAuth), [native])
    case TryFallback =>
      var api := Request(Endpoint(secure, host, port, FallbackPath), auth);
      match ApiOutcome(server(api))
      case Err(e) => Discovery(Err(e), [native, api])
      case Ok(apiInfo) =>
        var config := Request(Endpoint(secure, host, port, ConfigPath), auth);
        var requests := [native, api, config];
        match ConfigOutcome(server(config))
        case Object(fields) =>
          if apiInfo.Scalar? then Discovery(Err(Unexpected), requests)
          else Discovery(Ok(FallbackInfo(host, port, fields, sha256Hex)), requests)
        case _ => Discovery(Err(Unexpected), requests)
  }

  /** A 200 object with a "uuid" from the discovery endpoint is returned as it is, after one request. */
  lemma NativeShortCircuit(host: string, port: int, secure: bool, token: string,
                           server: Request -> HttpOutcome, sha256Hex: string -> string)
    requires var o := server(Request(Endpoint(secure, host, port, DiscoveryPath), Authorization(token)));
             o.Reply? && o.status == 200 && o.body.Object? && "uuid" in o.body.fields
    ensures var o := server(Request(Endpoint(secure, host, port, DiscoveryPath), Authorization(token)));
            var r := GetDiscoveryInfo(host, port, secure, token, server, sha256Hex);
            r.result == Ok(o.body.fields) && "uuid" in r.result.value && |r.requests| == 1
  {
  }

  /** A 401 from the discovery endpoint rejects the token after one request. */
  lemma UnauthorizedStops(host: string, port: int, secure: bool, token: string,
                          server: Request -> HttpOutcome, sha256Hex: string -> string)
    requires var o := server(Request(Endpoint(secure, host, port, DiscoveryPath), Authorization(token)));
             o.Reply? && o.status == 401
    ensures GetDiscoveryInfo(host, port, secure, token, server, sha256Hex) == Discovery(Err(InvalidAuth), [Request(Endpoint(secure, host, port, DiscoveryPath), Authorization(token))])
  {
  }

  /**
   * The discovery endpoint answers with its own info exactly when it replies
   * 200 with an object holding "uuid"; the token is rejected there exactly on
   * a 401; in every other case (a failure, another status, a body of another
   * shape) the fallback endpoints are asked.
   */
  lemma NativeOrFallback(host: string, port: int, secure: bool, token: string,
                         server: Request -> HttpOutcome, sha256Hex: string -> string)
    ensures var o := server(Request(Endpoint(secure, host, port, DiscoveryPath), Authorization(token)));
            var r := GetDiscoveryInfo(host, port, secure, token, server, sha256Hex);
            (|r.requests| == 1 <==> (o.Reply? && (o.status == 401 || (o.status == 200 && o.body.Object? && "uuid" in o.body.fields))))
            && (|r.requests| > 1 ==> r.requests[1].url == Endpoint(secure, host, port, FallbackPath))
  {
  }

  /**
   * Once the fallback is taken, the basic API decides whether discovery
   * goes on: a 401 rejects the token, a failure, another status or an
   * unreadable body is `CannotConnect`, and only a readable 200 reaches the
   * config endpoint.
   */
  lemma FallbackApiDecides(host: string, port: int, secure: bool, token: string,
                           server: Request -> HttpOutcome, sha256Hex: string -> string)
    requires NativeOutcome(server(Request(Endpoint(secure, host, port, DiscoveryPath), Authorization(token)))) == TryFallback
    ensures var o := server(Request(Endpoint(secure, host, port, FallbackPath), Authorization(token)));
            var r := GetDiscoveryInfo(host, port, secure, token, server, sha256Hex);
            && (o.Reply? && o.status == 401 ==> r.result == Err(InvalidAuth))
            && (o.Failed? || (o.status != 401 && (o.status != 200 || o.body.Unparsable?)) ==> r.result == Err(CannotConnect))
            && (|r.requests| == 3 <==> o.Reply? && o.status == 200 && !o.body.Unparsable?)
  {
  }

  /**
   * A fallback info always has the five keys, is flagged as fallback, and,
   * with a 64-character digest, carries a 32-character uuid that depends only
   * on host, port and location name.
   */
  lemma FallbackInfoFacts(host: string, port: int, config: map<string, Json>, sha256Hex: string -> string)
    ensures var info := FallbackInfo(host, port, config, sha256Hex);
            info.Keys == {"uuid", "location_name", "ha_version", "installation_type", "fallback_discovery"}
            && info["fallback_discovery"] == JBool(true)
            && info["installation_type"] == JString("unknown")
            && info["location_name"] == (if "location_name" in config then config["location_name"] else JString("Remote HA at " + host))
            && info["ha_version"] == (if "version" in config then config["version"] else JString("unknown"))
            && info["uuid"] == JString(PseudoUuid(host, port, info["location_name"], sha256Hex))
  {
  }

  /** With a full SHA-256 hex digest, the pseudo uuid is its first 32 characters. */
  lemma PseudoUuidLength(host: string, port: int, location: Json, sha256Hex: string -> string)
    requires |sha256Hex(host + ":" + IntToString(port) + ":" + Display(location))| == 64
    ensures |PseudoUuid(host, port, location, sha256Hex)| == 32
    ensures IsPrefix(PseudoUuid(host, port, location, sha256Hex), sha256Hex(host + ":" + IntToString(port) + ":" + Display(location)))
  {
  }

  /**
   * The same remote instance gets the same id: two servers whose config
   * endpoint gives the same object, and whose other replies get discovery to
   * the fallback info, yield the same uuid, whatever else they reply.
   */
  lemma FallbackUuidStable(host: string, port: int, secure: bool, token: string,
                           s1: Request -> HttpOutcome, s2: Request -> HttpOutcome, sha256Hex: string -> string)
    requires var configRequest := Request(Endpoint(secure, host, port, ConfigPath), Authorization(token));
             ConfigOutcome(s1(configRequest)) == ConfigOutcome(s2(configRequest))
    requires GetDiscoveryInfo(host, port, secure, token, s1, sha256Hex).requests == GetDiscoveryInfo(host, port, secure, token, s2, sha256Hex).requests
    requires |GetDiscoveryInfo(host, port, secure, token, s1, sha256Hex).requests| == 3
    requires GetDiscoveryInfo(host, port, secure, token, s1, sha256Hex).result.Ok?
    requires GetDiscoveryInfo(host, port, secure, token, s2, sha256Hex).result.Ok?
    ensures GetDiscoveryInfo(host, port, secure, token, s1, sha256Hex).result.value["uuid"]
         == GetDiscoveryInfo(host, port, secure, token, s2, sha256Hex).result.value["uuid"]
  {
  }

  /**
   * Bodies of the wrong JSON type escape as exceptions: a number, boolean or
   * null from the basic API fails the `"message" in` test, and a config
   * reply that is readable but not an object fails `.get`.
   */
  lemma WrongBodyEscapes(host: string, port: int, secure: bool, token: string,
                         server: Request -> HttpOutcome, sha256Hex: string -> string)
    requires NativeOutcome(server(Request(Endpoint(secure, host, port, DiscoveryPath), Authorization(token)))) == TryFallback
    requires ApiOutcome(server(Request(Endpoint(secure, host, port, FallbackPath), Authorization(token)))).Ok?
    ensures var api := ApiOutcome(server(Request(Endpoint(secure, host, port, FallbackPath), Authorization(token)))).value;
            var config := ConfigOutcome(server(Request(Endpoint(secure, host, port, ConfigPath), Authorization(token))));
            GetDiscoveryInfo(host, port, secure, token, server, sha256Hex).result.Err?
            <==> (api.Scalar? || !config.Object?)
  {
  }
}
