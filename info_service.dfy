/**
 * The info service of app_python/app.py: the request-fact fallbacks, the
 * bodies of `GET /` and `GET /health`, the two registered error handlers and
 * the dispatch of a request to one of them.
 *
 * Everything the service reads from outside (the clock, the host facts from
 * `socket`, `platform` and `os`, the connection and the headers) is an input.
 */
module InfoService {
  import opened Base
  import opened JsonValue
  import Uptime
  import Timestamp

  /** Identity strings fixed at startup (SERVICE_NAME, SERVICE_VERSION, SERVICE_DESCRIPTION). */
  datatype Config = Config(name: string, version: string, description: string)

  /** The values used when the environment sets none. */
  const DefaultConfig := Config("devops-info-service", "1.0.0", "DevOps course info service")
  const FrameworkName := "FastAPI"
  const Unknown := "unknown"

  /** The peer of the connection, `request.client`. */
  datatype Peer = Peer(host: string, port: int)

  /** What a handler sees of a request. Header names arrive as the server passes them. */
  datatype HttpRequest = HttpRequest(
    client: Option<Peer>,
    headers: seq<(string, string)>,
    verb: string,
    path: string)

  /** Results of the host probes; `cpuCount` is `os.cpu_count()`, which may be `None`. */
  datatype HostFacts = HostFacts(
    hostname: string,
    platform: string,
    platformVersion: string,
    architecture: string,
    cpuCount: Option<nat>,
    pythonVersion: string)

  // ---------------------------------------------------------------- fallbacks

  /** `client_ip_from_request`: the client's host when there is a client with a non-empty host, else "unknown". */
  function ClientAddress(client: Option<Peer>): (ip: string)
    ensures ip != []
    ensures client.Some? && client.value.host != [] ==> ip == client.value.host
    ensures client.None? || client.value.host == [] ==> ip == Unknown
  {
    if client.Some? && client.value.host != [] then client.value.host else Unknown
  }

  /** `os.cpu_count() or 0`: the detected count, 0 when it is undetermined. */
  function CpuCountOrZero(detected: Option<nat>): (n: nat)
    ensures detected.None? ==> n == 0
    ensures detected.Some? ==> n == detected.value
  {
    if detected.Some? && detected.value != 0 then detected.value else 0
  }

  function LowerChar(c: char): char {
    if 'A' <= c <= 'Z' then (c as int - 'A' as int + 'a' as int) as char else c
  }

  /** ASCII lower-casing, character by character. */
  function Lower(s: string): (r: string)
    ensures |r| == |s| && forall i :: 0 <= i < |s| ==> r[i] == LowerChar(s[i])
  {
    if s == [] then [] else [LowerChar(s[0])] + Lower(s[1..])
  }

  /** Header `i` is the first whose stored name equals `name` lower-cased. */
  predicate IsFirstHeader(headers: seq<(string, string)>, name: string, i: int) {
    && 0 <= i < |headers|
    && headers[i].0 == Lower(name)
    && forall k :: 0 <= k < i ==> headers[k].0 != Lower(name)
  }

  /**
   * `headers.get(name)`: the looked-up name is lower-cased and compared with
   * each stored name as the server delivered it; the first match wins. The
   * lookup finds nothing exactly when no name matches.
   */
  function HeaderValue(headers: seq<(string, string)>, name: string): (v: Option<string>)
    ensures v.None? <==> forall i :: 0 <= i < |headers| ==> headers[i].0 != Lower(name)
    ensures forall i :: IsFirstHeader(headers, name, i) ==> v == Some(headers[i].1)
  {
    if headers == [] then None
    else if headers[0].0 == Lower(name) then Some(headers[0].1)
    else
      var v := HeaderValue(headers[1..], name);
      assert forall i :: 1 <= i < |headers| ==> headers[i] == headers[1..][i - 1];
      assert forall i :: IsFirstHeader(headers, name, i) ==> IsFirstHeader(headers[1..], name, i - 1);
      v
  }

  const UserAgentHeader := "user-agent"

  /** The looked-up name is already lower case, so a stored `user-agent` matches it. */
  lemma UserAgentHeaderIsLower()
    ensures Lower(UserAgentHeader) == UserAgentHeader
  {
    assert forall i :: 0 <= i < |UserAgentHeader| ==> LowerChar(UserAgentHeader[i]) == UserAgentHeader[i];
  }

  /**
   * `request.headers.get("user-agent", "unknown")`: the first matching
   * header's value, even an empty one; "unknown" only when none matches.
   */
  function AgentOf(headers: seq<(string, string)>): (agent: string)
    ensures (forall i :: 0 <= i < |headers| ==> headers[i].0 != Lower(UserAgentHeader)) ==> agent == Unknown
    ensures forall i :: IsFirstHeader(headers, UserAgentHeader, i) ==> agent == headers[i].1
  {
    match HeaderValue(headers, UserAgentHeader)
    case Some(v) => v
    case None => Unknown
  }

  // --------------------------------------------------------------- the bodies

  const TopKeys := {Service, System, Runtime, Request, Endpoints}
  const ServiceKeys := {NameKey, Version, Description, Framework}
  const SystemKeys := {Hostname, Platform, PlatformVersion, Architecture, CpuCount, PythonVersion}
  const RuntimeKeys := {UptimeSeconds, UptimeHuman, CurrentTime, Timezone}
  const RequestKeys := {ClientIp, UserAgent, Method, Path}
  const HealthKeys := {Status, Timestamp, UptimeSeconds}
  const ErrorKeys := {Message, Error}
  const EndpointKeys := {Path, Method, Description}

  /** One entry of the hard-coded `endpoints` list. */
  datatype Endpoint = Endpoint(path: string, verb: string, description: string)

  const AdvertisedEndpoints := [
    Endpoint("/", "GET", "Service information"),
    Endpoint("/health", "GET", "Health check")
  ]

  /** One object of the `endpoints` list, with its path, method and description. */
  function EndpointJson(e: Endpoint): (j: Json)
    ensures j.JObject? && j.fields.Keys == EndpointKeys
    ensures Get(j, Path) == Some(JStr(e.path))
    ensures Get(j, Method) == Some(JStr(e.verb))
    ensures Get(j, Description) == Some(JStr(e.description))
  {
    JObject(map[Path := JStr(e.path), Method := JStr(e.verb), Description := JStr(e.description)])
  }

  /** The `endpoints` list: one object per advertised endpoint, in order. */
  function EndpointsJson(es: seq<Endpoint>): (j: Json)
    ensures j.JArray? && |j.items| == |es|
    ensures forall i :: 0 <= i < |es| ==> j.items[i] == EndpointJson(es[i])
  {
    JArray(seq(|es|, i requires 0 <= i < |es| => EndpointJson(es[i])))
  }

  /** The `service` section. */
  function ServiceJson(cfg: Config): (j: Json)
    ensures j.JObject? && j.fields.Keys == ServiceKeys
    ensures Get(j, NameKey) == Some(JStr(cfg.name))
    ensures Get(j, Version) == Some(JStr(cfg.version))
    ensures Get(j, Description) == Some(JStr(cfg.description))
    ensures Get(j, Framework) == Some(JStr(FrameworkName))
  {
    JObject(map[
      NameKey := JStr(cfg.name),
      Version := JStr(cfg.version),
      Description := JStr(cfg.description),
      Framework := JStr(FrameworkName)])
  }

  /** With no environment overrides, the `service` section holds the default identity strings. */
  lemma DefaultServiceSection()
    ensures var j := ServiceJson(DefaultConfig);
      && TextOf(j, NameKey) == Some("devops-info-service")
      && TextOf(j, Version) == Some("1.0.0")
      && TextOf(j, Description) == Some("DevOps course info service")
      && TextOf(j, Framework) == Some("FastAPI")
  {
    var j := ServiceJson(DefaultConfig);
    TextFromGet(j, NameKey, DefaultConfig.name);
    TextFromGet(j, Version, DefaultConfig.version);
    TextFromGet(j, Description, DefaultConfig.description);
    TextFromGet(j, Framework, FrameworkName);
  }

  /** `system_info()` built from the probe results; `cpu_count` is always an integer. */
  function SystemInfo(facts: HostFacts): (j: Json)
    ensures j.JObject? && j.fields.Keys == SystemKeys
    ensures Get(j, Hostname) == Some(JStr(facts.hostname))
    ensures Get(j, Platform) == Some(JStr(facts.platform))
    ensures Get(j, PlatformVersion) == Some(JStr(facts.platformVersion))
    ensures Get(j, Architecture) == Some(JStr(facts.architecture))
    ensures Get(j, PythonVersion) == Some(JStr(facts.pythonVersion))
    ensures Get(j, CpuCount) == Some(JInt(CpuCountOrZero(facts.cpuCount)))
  {
    JObject(map[
      Hostname := JStr(facts.hostname),
      Platform := JStr(facts.platform),
      PlatformVersion := JStr(facts.platformVersion),
      Architecture := JStr(facts.architecture),
      CpuCount := JInt(CpuCountOrZero(facts.cpuCount)),
      PythonVersion := JStr(facts.pythonVersion)])
  }

  /** The `runtime` section, from `get_uptime_seconds()` and `iso_utc_now()` as read by the handler. */
  function RuntimeJson(up: Uptime.UptimeInfo, currentTime: string): (j: Json)
    ensures j.JObject? && j.fields.Keys == RuntimeKeys
    ensures Get(j, UptimeSeconds) == Some(JInt(up.seconds))
    ensures Get(j, UptimeHuman) == Some(JStr(up.human))
    ensures Get(j, CurrentTime) == Some(JStr(currentTime))
    ensures Get(j, Timezone) == Some(JStr("UTC"))
  {
    JObject(map[
      UptimeSeconds := JInt(up.seconds),
      UptimeHuman := JStr(up.human),
      CurrentTime := JStr(currentTime),
      Timezone := JStr("UTC")])
  }

  /** The `request` section from its four already-extracted values. */
  function RequestSection(clientIp: string, agent: string, verb: string, path: string): (j: Json)
    ensures j.JObject? && j.fields.Keys == RequestKeys
    ensures Get(j, ClientIp) == Some(JStr(clientIp))
    ensures Get(j, UserAgent) == Some(JStr(agent))
    ensures Get(j, Method) == Some(JStr(verb))
    ensures Get(j, Path) == Some(JStr(path))
  {
    JObject(map[ClientIp := JStr(clientIp), UserAgent := JStr(agent), Method := JStr(verb), Path := JStr(path)])
  }

  /** The `request` section: who asked, with which agent, method and path. */
  function RequestJson(req: HttpRequest): (j: Json)
    ensures j.JObject? && j.fields.Keys == RequestKeys
    ensures Get(j, ClientIp) == Some(JStr(ClientAddress(req.client)))
    ensures Get(j, UserAgent) == Some(JStr(AgentOf(req.headers)))
    ensures Get(j, Method) == Some(JStr(req.verb))
    ensures Get(j, Path) == Some(JStr(req.path))
  {
    RequestSection(ClientAddress(req.client), AgentOf(req.headers), req.verb, req.path)
  }

  /** The top-level object of the root body from its five sections. */
  function RootObject(service: Json, system: Json, runtime: Json, request: Json, endpoints: Json): (j: Json)
    ensures j.JObject? && j.fields.Keys == TopKeys
    ensures Get(j, Service) == Some(service) && Get(j, System) == Some(system)
    ensures Get(j, Runtime) == Some(runtime) && Get(j, Request) == Some(request)
    ensures Get(j, Endpoints) == Some(endpoints)
  {
    JObject(map[Service := service, System := system, Runtime := runtime, Request := request, Endpoints := endpoints])
  }

  /**
   * The body `root` returns, given what its helper calls returned: the
   * uptime reading `up` and the clock text `currentTime`.
   */
  function RootBody(cfg: Config, facts: HostFacts, up: Uptime.UptimeInfo, currentTime: string, req: HttpRequest): (j: Json)
    ensures j.JObject? && j.fields.Keys == TopKeys
    ensures Get(j, Service) == Some(ServiceJson(cfg))
    ensures Get(j, System) == Some(SystemInfo(facts))
    ensures Get(j, Runtime) == Some(RuntimeJson(up, currentTime))
    ensures Get(j, Request) == Some(RequestJson(req))
    ensures Get(j, Endpoints) == Some(EndpointsJson(AdvertisedEndpoints))
  {
    RootObject(ServiceJson(cfg), SystemInfo(facts), RuntimeJson(up, currentTime), RequestJson(req), EndpointsJson(AdvertisedEndpoints))
  }

  /** What a client reads at `data[section][key]` in the root body. */
  lemma RootBodyFields(cfg: Config, facts: HostFacts, up: Uptime.UptimeInfo, currentTime: string, req: HttpRequest)
    ensures var j := RootBody(cfg, facts, up, currentTime, req);
      && Field(j, Service, NameKey) == Some(JStr(cfg.name))
      && Field(j, Service, Version) == Some(JStr(cfg.version))
      && Field(j, Service, Description) == Some(JStr(cfg.description))
      && Field(j, Service, Framework) == Some(JStr(FrameworkName))
      && Field(j, System, Hostname) == Some(JStr(facts.hostname))
      && Field(j, System, Platform) == Some(JStr(facts.platform))
      && Field(j, System, PlatformVersion) == Some(JStr(facts.platformVersion))
      && Field(j, System, Architecture) == Some(JStr(facts.architecture))
      && Field(j, System, PythonVersion) == Some(JStr(facts.pythonVersion))
      && Field(j, System, CpuCount) == Some(JInt(CpuCountOrZero(facts.cpuCount)))
      && Field(j, Runtime, UptimeSeconds) == Some(JInt(up.seconds))
      && Field(j, Runtime, UptimeHuman) == Some(JStr(up.human))
      && Field(j, Runtime, CurrentTime) == Some(JStr(currentTime))
      && Field(j, Runtime, Timezone) == Some(JStr("UTC"))
      && Field(j, Request, ClientIp) == Some(JStr(ClientAddress(req.client)))
      && Field(j, Request, UserAgent) == Some(JStr(AgentOf(req.headers)))
      && Field(j, Request, Method) == Some(JStr(req.verb))
      && Field(j, Request, Path) == Some(JStr(req.path))
  {
  }

  /** The body `health` returns, given its clock text and uptime reading. */
  function HealthBody(timestamp: string, up: Uptime.UptimeInfo): (j: Json)
    ensures j.JObject? && j.fields.Keys == HealthKeys
    ensures Get(j, Status) == Some(JStr("healthy"))
    ensures Get(j, Timestamp) == Some(JStr(timestamp))
    ensures Get(j, UptimeSeconds) == Some(JInt(up.seconds))
  {
    JObject(map[
      Status := JStr("healthy"),
      Timestamp := JStr(timestamp),
      UptimeSeconds := JInt(up.seconds)])
  }

  /** A successful body never carries the `error` member the error handlers set. */
  lemma SuccessHasNoError(j: Json)
    requires j.JObject? && (j.fields.Keys == TopKeys || j.fields.Keys == HealthKeys)
    ensures Get(j, Error).None? && Get(j, Message).None?
  {
    assert Error !in TopKeys && Error !in HealthKeys;
    assert Message !in TopKeys && Message !in HealthKeys;
  }

  // ----------------------------------------------------------- error handlers

  /** The two failures that have a registered handler. */
  datatype ErrorKind = NotFound | InternalError

  /**
   * What goes back to the client: a JSON document, a redirect to another
   * path, or a page the framework serves itself (its content is not modelled).
   */
  datatype Response =
    | Response(status: int, body: Json)
    | Redirect(status: int, location: string)
    | Page(status: int, path: string)

  /** `not_found_exception` and `internal_server_error`; `description` is `str(exc)`. */
  function ErrorResponse(kind: ErrorKind, description: string): (r: Response)
    ensures r.status == 404 <==> kind == NotFound
    ensures r.status == 500 <==> kind == InternalError
    ensures r.Response? && r.body.JObject? && r.body.fields.Keys == ErrorKeys
    ensures Get(r.body, Message) == Some(JStr(if kind == NotFound then "Endpoint not found" else "Internal server error"))
    ensures Get(r.body, Error) == Some(JStr(description))
  {
    match kind
    case NotFound =>
      Response(404, JObject(map[Message := JStr("Endpoint not found"), Error := JStr(description)]))
    case InternalError =>
      Response(500, JObject(map[Message := JStr("Internal server error"), Error := JStr(description)]))
  }

  // ----------------------------------------------------------------- dispatch

  /** What serves a matched request: one of the two handlers, or a page the framework adds. */
  datatype Route = RootRoute | HealthRoute | FrameworkRoute(path: string)

  /** The paths registered with `@app.get`. */
  const AppPaths := ["/", "/health"]

  /** The paths `FastAPI(...)` registers by default: the OpenAPI schema and the documentation pages. */
  const FrameworkPaths := ["/openapi.json", "/docs", "/docs/oauth2-redirect", "/redoc"]

  predicate IsRegistered(path: string) {
    path in AppPaths || path in FrameworkPaths
  }

  /**
   * The route that fully matches a request. An `@app.get` route accepts GET
   * only; the framework's own pages accept GET and HEAD. A registered path
   * asked with another method matches only partially, and no route is served.
   */
  function RouteFor(verb: string, path: string): (r: Option<Route>)
    ensures r == Some(RootRoute) <==> path == "/" && verb == "GET"
    ensures r == Some(HealthRoute) <==> path == "/health" && verb == "GET"
    ensures r == Some(FrameworkRoute(path)) <==> path in FrameworkPaths && (verb == "GET" || verb == "HEAD")
    ensures r.Some? ==> IsRegistered(path) && (r.value.FrameworkRoute? ==> r.value.path == path)
  {
    if path == "/" && verb == "GET" then Some(RootRoute)
    else if path == "/health" && verb == "GET" then Some(HealthRoute)
    else if path in FrameworkPaths && (verb == "GET" || verb == "HEAD") then Some(FrameworkRoute(path))
    else None
  }

  /** `path` without its trailing slashes. */
  function StripSlashes(path: string): (r: string)
    ensures |r| <= |path| && r == path[..|r|]
    ensures r == [] || r[|r| - 1] != '/'
    ensures forall i :: |r| <= i < |path| ==> path[i] == '/'
  {
    if path == [] || path[|path| - 1] != '/' then path else StripSlashes(path[..|path| - 1])
  }

  /** The path the router tries when nothing matches: trailing slashes removed, or one added. */
  function SlashVariant(path: string): string
  {
    if path != [] && path[|path| - 1] == '/' then StripSlashes(path) else path + "/"
  }

  /** The text of the framework's not-found exception, `str(HTTPException(404))`. */
  const NotFoundText := "404: Not Found"

  /** The framework's answer when the path exists but the method does not. */
  const MethodNotAllowed := Response(405, JObject(map[Detail := JStr("Method Not Allowed")]))

  /** What the router decides for a request, before any handler runs. */
  datatype Outcome = Serve(route: Route) | NotAllowed | RedirectTo(target: string) | NoRoute

  /**
   * The router: serve the fully matching route; a registered path with a
   * method its route does not accept is not allowed; otherwise redirect to
   * the slash variant of the path (never for "/") if a route is registered
   * there; otherwise there is no route.
   */
  function Dispatch(verb: string, path: string): (o: Outcome)
    ensures o.Serve? <==> RouteFor(verb, path).Some?
    ensures o.Serve? ==> o.route == RouteFor(verb, path).value
    ensures o == NotAllowed <==> RouteFor(verb, path).None? && IsRegistered(path)
    ensures o.RedirectTo? <==> !IsRegistered(path) && path != "/" && IsRegistered(SlashVariant(path))
    ensures o.RedirectTo? ==> o.target == SlashVariant(path)
    ensures o == NoRoute <==> !IsRegistered(path) && (path == "/" || !IsRegistered(SlashVariant(path)))
  {
    match RouteFor(verb, path)
    case Some(route) => Serve(route)
    case None =>
      if IsRegistered(path) then NotAllowed
      else if path != "/" && IsRegistered(SlashVariant(path)) then RedirectTo(SlashVariant(path))
      else NoRoute
  }

  /**
   * The response to a request. `probe` is the outcome of the host probes
   * `system_info` makes (an exception carries its text), `elapsed` the whole
   * seconds since start and `now` the UTC clock reading. With no route, the
   * router raises the 404 exception, which the registered handler answers.
   */
  function Handle(cfg: Config, probe: Result<HostFacts, string>, elapsed: nat, now: Timestamp.DateTime, req: HttpRequest): (r: Response)
    requires Timestamp.Valid(now)
    ensures r.status in {200, 307, 404, 405, 500}
    ensures r.status == 200 <==> Dispatch(req.verb, req.path) == Serve(HealthRoute)
                                 || (Dispatch(req.verb, req.path) == Serve(RootRoute) && probe.Ok?)
                                 || (Dispatch(req.verb, req.path).Serve? && Dispatch(req.verb, req.path).route.FrameworkRoute?)
    ensures r.status == 307 <==> Dispatch(req.verb, req.path).RedirectTo?
    ensures r.status == 404 <==> Dispatch(req.verb, req.path) == NoRoute
    ensures r.status == 405 <==> Dispatch(req.verb, req.path) == NotAllowed
    ensures r.status == 500 <==> Dispatch(req.verb, req.path) == Serve(RootRoute) && probe.Err?
    ensures r.status == 200 ==> r.Page? || (r.Response? && r.body.JObject? && (r.body.fields.Keys == TopKeys || r.body.fields.Keys == HealthKeys))
    ensures r.status == 307 ==> r == Redirect(307, Dispatch(req.verb, req.path).target)
    ensures r.status == 404 || r.status == 500 ==> r.Response? && r.body.JObject? && r.body.fields.Keys == ErrorKeys
  {
    match Dispatch(req.verb, req.path)
    case Serve(RootRoute) =>
      (match probe
       case Ok(facts) =>
         Response(200, RootBody(cfg, facts, Uptime.GetUptime(elapsed), Timestamp.IsoUtc(now), req))
       case Err(text) => ErrorResponse(InternalError, text))
    case Serve(HealthRoute) =>
      Response(200, HealthBody(Timestamp.IsoUtc(now), Uptime.GetUptime(elapsed)))
    case Serve(FrameworkRoute(path)) => Page(200, path)
    case NotAllowed => MethodNotAllowed
    case RedirectTo(target) => Redirect(307, target)
    case NoRoute => ErrorResponse(NotFound, NotFoundText)
  }

  // ------------------------------------------------------ request-level facts

  /** The strings a client reads in the root body's runtime and request sections. */
  lemma RootBodyTexts(cfg: Config, facts: HostFacts, up: Uptime.UptimeInfo, stamp: string, req: HttpRequest)
    ensures var j := RootBody(cfg, facts, up, stamp, req);
      && TextAt(j, Runtime, UptimeHuman) == Some(up.human)
      && TextAt(j, Runtime, CurrentTime) == Some(stamp)
      && TextAt(j, Runtime, Timezone) == Some("UTC")
      && TextAt(j, Request, Method) == Some(req.verb)
      && TextAt(j, Request, Path) == Some(req.path)
  {
    var j := RootBody(cfg, facts, up, stamp, req);
    RootBodyFields(cfg, facts, up, stamp, req);
    TextFromField(j, Runtime, UptimeHuman, up.human);
    TextFromField(j, Runtime, CurrentTime, stamp);
    TextFromField(j, Runtime, Timezone, "UTC");
    TextFromField(j, Request, Method, req.verb);
    TextFromField(j, Request, Path, req.path);
  }

  /** The uptime reading's text reads back as the truncated split of the elapsed seconds. */
  lemma UptimeReadsBack(elapsed: nat)
    ensures Uptime.GetUptime(elapsed).seconds == elapsed
    ensures Uptime.ParseHuman(Uptime.GetUptime(elapsed).human) == Some(Uptime.HoursMinutes(elapsed))
  {
    var hm := Uptime.ParseHuman(Uptime.GetUptime(elapsed).human).value;
    Uptime.TruncatedSplitUnique(elapsed, hm.0, hm.1);
  }

  /**
   * `GET /` on a host whose probes succeed: status 200, the uptime echoes the
   * elapsed seconds, its text reads back as their truncated split, the clock
   * text reads back as the clock cut to milliseconds, and the request section
   * echoes the request.
   */
  lemma RootResponse(cfg: Config, facts: HostFacts, elapsed: nat, now: Timestamp.DateTime, req: HttpRequest)
    requires Timestamp.Valid(now)
    requires RouteFor(req.verb, req.path) == Some(RootRoute)
    ensures var r := Handle(cfg, Ok(facts), elapsed, now, req);
      && r.status == 200 && r.Response?
      && r.body == RootBody(cfg, facts, Uptime.GetUptime(elapsed), Timestamp.IsoUtc(now), req)
      && r.body.JObject? && r.body.fields.Keys == TopKeys
      && Field(r.body, Runtime, UptimeSeconds) == Some(JInt(elapsed))
      && TextAt(r.body, Runtime, UptimeHuman).Some?
      && Uptime.ParseHuman(TextAt(r.body, Runtime, UptimeHuman).value) == Some(Uptime.HoursMinutes(elapsed))
      && TextAt(r.body, Runtime, CurrentTime).Some?
      && Timestamp.ParseStamp(TextAt(r.body, Runtime, CurrentTime).value) == Some(Timestamp.Truncate(now))
      && TextAt(r.body, Runtime, Timezone) == Some("UTC")
      && TextAt(r.body, Request, Method) == Some(req.verb)
      && TextAt(r.body, Request, Path) == Some(req.path)
  {
    var up := Uptime.GetUptime(elapsed);
    var stamp := Timestamp.IsoUtc(now);
    assert Handle(cfg, Ok(facts), elapsed, now, req) == Response(200, RootBody(cfg, facts, up, stamp, req));
    UptimeReadsBack(elapsed);
    Timestamp.IsoUtcRoundTrip(now);
    RootBodyFields(cfg, facts, up, stamp, req);
    RootBodyTexts(cfg, facts, up, stamp, req);
  }

  /** A `GET /` carrying a `user-agent` header has that agent echoed in the request section. */
  lemma RootEchoesAgent(cfg: Config, facts: HostFacts, elapsed: nat, now: Timestamp.DateTime, client: Option<Peer>, agent: string)
    requires Timestamp.Valid(now)
    ensures var r := Handle(cfg, Ok(facts), elapsed, now, HttpRequest(client, [(UserAgentHeader, agent)], "GET", "/"));
      && r.status == 200 && r.Response?
      && TextAt(r.body, Request, UserAgent) == Some(agent)
      && TextAt(r.body, Request, Method) == Some("GET")
      && TextAt(r.body, Request, Path) == Some("/")
  {
    var req := HttpRequest(client, [(UserAgentHeader, agent)], "GET", "/");
    var j := RootBody(cfg, facts, Uptime.GetUptime(elapsed), Timestamp.IsoUtc(now), req);
    assert Handle(cfg, Ok(facts), elapsed, now, req) == Response(200, j);
    assert AgentOf(req.headers) == agent by {
      UserAgentHeaderIsLower();
      assert IsFirstHeader(req.headers, UserAgentHeader, 0);
    }
    RootBodyFields(cfg, facts, Uptime.GetUptime(elapsed), Timestamp.IsoUtc(now), req);
    TextFromField(j, Request, UserAgent, agent);
    TextFromField(j, Request, Method, "GET");
    TextFromField(j, Request, Path, "/");
  }

  /**
   * `GET /health`, whatever the host probes would do: status 200, "healthy",
   * the elapsed seconds, and a timestamp that reads back as the clock cut to
   * milliseconds.
   */
  lemma HealthResponse(cfg: Config, probe: Result<HostFacts, string>, elapsed: nat, now: Timestamp.DateTime, req: HttpRequest)
    requires Timestamp.Valid(now)
    requires RouteFor(req.verb, req.path) == Some(HealthRoute)
    ensures var r := Handle(cfg, probe, elapsed, now, req);
      && r.status == 200 && r.Response?
      && r.body == HealthBody(Timestamp.IsoUtc(now), Uptime.GetUptime(elapsed))
      && r.body.JObject? && r.body.fields.Keys == HealthKeys
      && TextOf(r.body, Status) == Some("healthy")
      && Get(r.body, UptimeSeconds) == Some(JInt(elapsed))
      && TextOf(r.body, Timestamp).Some?
      && Timestamp.ParseStamp(TextOf(r.body, Timestamp).value) == Some(Timestamp.Truncate(now))
  {
    var up := Uptime.GetUptime(elapsed);
    var stamp := Timestamp.IsoUtc(now);
    var j := HealthBody(stamp, up);
    assert Handle(cfg, probe, elapsed, now, req) == Response(200, j);
    TextFromGet(j, Status, "healthy");
    TextFromGet(j, Timestamp, stamp);
    Timestamp.IsoUtcRoundTrip(now);
  }

  /** A failing host probe on `GET /` reaches the 500 handler with the failure's text. */
  lemma ProbeFailure(cfg: Config, text: string, elapsed: nat, now: Timestamp.DateTime, req: HttpRequest)
    requires Timestamp.Valid(now)
    requires RouteFor(req.verb, req.path) == Some(RootRoute)
    ensures var r := Handle(cfg, Err(text), elapsed, now, req);
      && r.status == 500 && r.Response?
      && TextOf(r.body, Message) == Some("Internal server error")
      && TextOf(r.body, Error) == Some(text)
  {
  }

  /**
   * A path that is registered neither as it is nor in its slash variant is
   * answered by the 404 handler, whatever the method.
   */
  lemma UnregisteredPathNotFound(cfg: Config, probe: Result<HostFacts, string>, elapsed: nat, now: Timestamp.DateTime, req: HttpRequest)
    requires Timestamp.Valid(now)
    requires !IsRegistered(req.path) && !IsRegistered(SlashVariant(req.path))
    ensures var r := Handle(cfg, probe, elapsed, now, req);
      && r.status == 404 && r.Response?
      && r.body.JObject? && r.body.fields.Keys == ErrorKeys
      && TextOf(r.body, Message) == Some("Endpoint not found")
      && TextOf(r.body, Error) == Some(NotFoundText)
  {
  }

  /** The request of the service's own not-found test. */
  lemma NoSuchEndpoint(cfg: Config, probe: Result<HostFacts, string>, elapsed: nat, now: Timestamp.DateTime, client: Option<Peer>)
    requires Timestamp.Valid(now)
    ensures var r := Handle(cfg, probe, elapsed, now, HttpRequest(client, [], "GET", "/no-such-endpoint"));
      && r.status == 404 && r.Response? && TextOf(r.body, Message) == Some("Endpoint not found")
  {
    var path := "/no-such-endpoint";
    assert path[|path| - 1] != '/';
    assert !IsRegistered(path) && !IsRegistered(SlashVariant(path));
  }

  /**
   * An unregistered path whose slash variant is registered is redirected
   * there with 307, whatever the method.
   */
  lemma SlashVariantRedirects(cfg: Config, probe: Result<HostFacts, string>, elapsed: nat, now: Timestamp.DateTime, req: HttpRequest)
    requires Timestamp.Valid(now)
    requires !IsRegistered(req.path) && IsRegistered(SlashVariant(req.path))
    ensures Handle(cfg, probe, elapsed, now, req) == Redirect(307, SlashVariant(req.path))
  {
  }

  /** `/health/` and `/health//` are redirected to `/health`. */
  lemma HealthSlashRedirects(cfg: Config, probe: Result<HostFacts, string>, elapsed: nat, now: Timestamp.DateTime, client: Option<Peer>)
    requires Timestamp.Valid(now)
    ensures Handle(cfg, probe, elapsed, now, HttpRequest(client, [], "GET", "/health/")) == Redirect(307, "/health")
    ensures Handle(cfg, probe, elapsed, now, HttpRequest(client, [], "GET", "/health//")) == Redirect(307, "/health")
  {
    assert SlashVariant("/health/") == "/health" by {
      assert "/health/"[..7] == "/health";
    }
    assert SlashVariant("/health//") == "/health" by {
      assert "/health//"[..8] == "/health/";
      assert "/health/"[..7] == "/health";
    }
    assert !IsRegistered("/health/") && !IsRegistered("/health//");
  }

  /** A registered path asked with a method its route does not accept gets 405; HEAD included on the two GET routes. */
  lemma OtherMethodNotAllowed(cfg: Config, probe: Result<HostFacts, string>, elapsed: nat, now: Timestamp.DateTime, req: HttpRequest)
    requires Timestamp.Valid(now)
    requires req.path in AppPaths && req.verb != "GET"
    ensures var r := Handle(cfg, probe, elapsed, now, req);
      && r.status == 405 && r.Response?
      && r.body == JObject(map[Detail := JStr("Method Not Allowed")])
  {
  }

  /** The framework's own pages are served with 200 for GET and HEAD, whatever the host probes would do. */
  lemma FrameworkPagesServed(cfg: Config, probe: Result<HostFacts, string>, elapsed: nat, now: Timestamp.DateTime, req: HttpRequest)
    requires Timestamp.Valid(now)
    requires req.path in FrameworkPaths && (req.verb == "GET" || req.verb == "HEAD")
    ensures Handle(cfg, probe, elapsed, now, req) == Page(200, req.path)
  {
    assert RouteFor(req.verb, req.path) == Some(FrameworkRoute(req.path)) by {
      assert req.path != "/" && req.path != "/health";
    }
  }

  /**
   * Every advertised endpoint is routed, and every path served by one of the
   * service's own handlers is advertised.
   */
  lemma AdvertisedEndpointsRouted(verb: string, path: string)
    ensures forall i :: 0 <= i < |AdvertisedEndpoints| ==>
      RouteFor(AdvertisedEndpoints[i].verb, AdvertisedEndpoints[i].path).Some?
    ensures RouteFor(verb, path) == Some(RootRoute) || RouteFor(verb, path) == Some(HealthRoute) ==>
      exists i :: 0 <= i < |AdvertisedEndpoints| && AdvertisedEndpoints[i].path == path && AdvertisedEndpoints[i].verb == verb
  {
    if RouteFor(verb, path) == Some(RootRoute) || RouteFor(verb, path) == Some(HealthRoute) {
      var i := if path == "/" then 0 else 1;
      assert AdvertisedEndpoints[i].path == path && AdvertisedEndpoints[i].verb == verb;
    }
  }
}
