/**
 * backend-with-fallback.js: the same order, driver-location and Google Maps
 * routes as the WeatherAPI.com worker, an OpenWeatherMap weather route that
 * degrades every failure to a dry 200 answer tagged with its `fallback`
 * reason, no status document at `/`, and a bare plain-text 404.
 */
module WithFallback {
  import opened Js
  import opened Rain
  import opened Worker
  import opened ProxyRoutes
  import opened Forecast

  /** The dry default of a failure, tagged with why it was given. */
  function FallbackDoc(description: string, location: string, tag: string, debug: map<string, Json>): map<string, Json> {
    map[
      "success" := JBool(true),
      "isRaining" := JBool(false),
      "weather" := JStr("Unknown"),
      "description" := JStr(description),
      "temperature" := JNull,
      "location" := JStr(location),
      "fallback" := JStr(tag)
    ] + (if debug == map[] then map[] else map["debug" := JObj(debug)])
  }

  const FallbackMaxAge: nat := 300
  const ForecastMaxAge: nat := 1800

  /** A failure degraded to a dry answer, cached for 5 minutes. */
  function Degraded(description: string, location: string, tag: string, debug: map<string, Json>): (r: Response)
    ensures r.status == 200 && r.headers.cors && r.headers.maxAge == Some(FallbackMaxAge)
    ensures Field(r, "success") == Some(JBool(true)) && Field(r, "isRaining") == Some(JBool(false))
    ensures Field(r, "fallback") == Some(JStr(tag))
    ensures debug != map[] ==> Field(r, "debug") == Some(JObj(debug))
  {
    CachedJson(200, FallbackDoc(description, location, tag, debug), FallbackMaxAge)
  }

  /** A delivered reading, tagged `fallback: "none"` and cached for 30 minutes. */
  function Forecasted(reading: OwmReading, place: string): (r: Response)
    ensures r.status == 200 && r.headers.cors && r.headers.maxAge == Some(ForecastMaxAge)
    ensures Field(r, "success") == Some(JBool(true))
    ensures Field(r, "isRaining") == Some(JBool(OwmRaining(reading.weatherMain)))
    ensures Field(r, "fallback") == Some(JStr("none"))
  {
    CachedJson(200, OwmForecast(reading, place)["fallback" := JStr("none")], ForecastMaxAge)
  }

  /** GET /weather/{lat}/{lng}: bad coordinates give 400 before anything
      else; the OpenWeatherMap call is made exactly when the coordinates are
      valid and a key is configured. */
  function Weather(req: Request, env: Env, reply: HttpReply): (o: Outcome)
    ensures var parts := PathParts(req.pathname);
      && (o.response.status == 400 <==> !ValidCoordinates(parts))
      && (!ValidCoordinates(parts) ==> o == Outcome([], JsonResponse(400, Failure(CoordinateProblem(parts).value))))
      && (o.calls == [] <==> !ValidCoordinates(parts) || !Configured(env.weatherApiKey))
      && (o.calls != [] ==> o.calls == [WeatherCall(OwmUrl(parts[2], parts[3], env.weatherApiKey.value))])
    ensures o.response.headers.cors
  {
    var parts := PathParts(req.pathname);
    match CoordinateProblem(parts)
    case Some(problem) => Outcome([], JsonResponse(400, Failure(problem)))
    case None =>
      var place := LocationLabel(parts);
      if !Configured(env.weatherApiKey) then
        Outcome([], Degraded("天气API未配置，使用默认值", place, "no_api_key", map[]))
      else
        var call := WeatherCall(OwmUrl(parts[2], parts[3], env.weatherApiKey.value));
        match reply
        case NetworkFailure(_) =>
          Outcome([call], Degraded("网络连接失败，使用默认值", place, "network_error", map[]))
        case Answered(status, _, body) =>
          if !Ok(status) then
            Outcome([call], Degraded("天气API暂时不可用，使用默认值", place, "api_error",
              map["status" := JNum(status as real), "message" := JStr("API key may be inactive or invalid")]))
          else match OwmDelivered(reply)
            case Threw(m) =>
              Outcome([call], Degraded("系统暂时不可用，使用默认值", "Unknown", "system_error", map["error" := JStr(m)]))
            case Got(r) =>
              Outcome([call], Forecasted(r, place))
  }

  /** Past the coordinate check the weather route never fails: every failure
      answers 200 with `success: true`. */
  lemma WeatherAlwaysAnswers(req: Request, env: Env, reply: HttpReply)
    requires ValidCoordinates(PathParts(req.pathname))
    ensures var o := Weather(req, env, reply);
      o.response.status == 200 && Field(o.response, "success") == Some(JBool(true))
  {
  }

  /** Only a delivered reading is cached for 30 minutes and tagged
      `fallback: "none"`; every fallback is cached for 5. */
  lemma WeatherCacheAge(req: Request, env: Env, reply: HttpReply)
    requires ValidCoordinates(PathParts(req.pathname))
    ensures var o := Weather(req, env, reply);
      var delivered := o.calls != [] && OwmDelivered(reply).Got?;
      && o.response.headers.maxAge == Some(if delivered then ForecastMaxAge else FallbackMaxAge)
      && (Field(o.response, "fallback") == Some(JStr("none")) <==> delivered)
  {
  }

  /** The answer says rain exactly when a reading was delivered and its
      lowercased `main` is rain, drizzle or thunderstorm. */
  lemma WeatherRainVerdict(req: Request, env: Env, reply: HttpReply)
    requires ValidCoordinates(PathParts(req.pathname))
    ensures var o := Weather(req, env, reply);
      Field(o.response, "isRaining") == Some(JBool(
        o.calls != [] && OwmDelivered(reply).Got? && OwmRaining(OwmDelivered(reply).value.weatherMain)))
  {
  }

  /** The `fallback` tag says why the answer is a default: no key, a failed
      request, a non-OK status (reported in `debug`), or an exception while
      reading the reply; a delivered reading is tagged "none". */
  lemma FallbackTags(req: Request, env: Env, reply: HttpReply)
    requires ValidCoordinates(PathParts(req.pathname))
    ensures var o := Weather(req, env, reply);
      var tag := Field(o.response, "fallback");
      && (!Configured(env.weatherApiKey) ==> tag == Some(JStr("no_api_key")))
      && (Configured(env.weatherApiKey) && reply.NetworkFailure? ==> tag == Some(JStr("network_error")))
      && (Configured(env.weatherApiKey) && reply.Answered? && !Ok(reply.status) ==>
            tag == Some(JStr("api_error"))
            && OptMember(Field(o.response, "debug"), "status") == Some(JNum(reply.status as real)))
      && (Configured(env.weatherApiKey) && reply.Answered? && Ok(reply.status) && OwmDelivered(reply).Threw? ==>
            tag == Some(JStr("system_error")))
      && (Configured(env.weatherApiKey) && OwmDelivered(reply).Got? ==> tag == Some(JStr("none")))
  {
    if Configured(env.weatherApiKey) && reply.Answered? && !Ok(reply.status) {
      var debug := map["status" := JNum(reply.status as real), "message" := JStr("API key may be inactive or invalid")];
      assert OptMember(Some(JObj(debug)), "status") == Some(JNum(reply.status as real));
    }
  }

  /** `new Response('Not Found', { status: 404 })`: no CORS headers. */
  const NotFound: Response := Response(404, Headers(false, false, None), TextBody("Not Found"))

  /** A request none of the routes takes: not OPTIONS, not the order POST,
      and not a GET under /driver-location/, /weather/ or /maps/. */
  predicate Unrouted(req: Request) {
    && req.verb != "OPTIONS"
    && !(req.verb == "POST" && req.pathname == "/track-order")
    && !(req.verb == "GET" && (StartsWith(req.pathname, "/driver-location/") || StartsWith(req.pathname, "/weather/")
                               || StartsWith(req.pathname, "/maps/")))
  }

  /** The whole `fetch` handler: OPTIONS first, then the routes in source
      order, then the bare 404. */
  function Handle(req: Request, env: Env, up: Upstream): (o: Outcome)
    ensures req.verb == "OPTIONS" ==> o == Outcome([], Preflight)
    ensures o.response.headers.cors || o == Outcome([], NotFound)
    ensures |o.calls| <= 1
    ensures req.verb !in {"GET", "POST"} ==> o.calls == []
    ensures Unrouted(req) <==> o == Outcome([], NotFound)
  {
    if req.verb == "OPTIONS" then Outcome([], Preflight)
    else if req.verb == "POST" && req.pathname == "/track-order" then TrackOrder(req, env, up.trackOrder)
    else if req.verb == "GET" && StartsWith(req.pathname, "/driver-location/") then DriverLocation(req, env, up.driverLocation)
    else if req.verb == "GET" && StartsWith(req.pathname, "/weather/") then Weather(req, env, up.weather)
    else if req.verb == "GET" && req.pathname == "/maps/js-api-url" then MapsJsApiUrl(env)
    else if req.verb == "GET" && StartsWith(req.pathname, "/maps/") then MapsProxy(req, env, up.maps)
    else Outcome([], NotFound)
  }

  /** This worker has no status document: `/` is a bare 404 for every
      method but OPTIONS. */
  lemma RootNotServed(req: Request, env: Env, up: Upstream)
    requires req.verb != "OPTIONS" && req.pathname == "/"
    ensures Handle(req, env, up) == Outcome([], NotFound)
  {
  }

  /** Every GET under /weather/ reaches the weather route. */
  lemma WeatherRoute(req: Request, env: Env, up: Upstream)
    requires req.verb == "GET" && StartsWith(req.pathname, "/weather/")
    ensures Handle(req, env, up) == Weather(req, env, up.weather)
  {
    StartsWithDiffers(req.pathname, "/weather/", "/driver-location/", 1);
  }

  /** GET /maps/js-api-url is answered by the key route, not forwarded by
      the generic proxy; every other GET under /maps/ is forwarded. */
  lemma MapsRoutes(req: Request, env: Env, up: Upstream)
    requires req.verb == "GET" && StartsWith(req.pathname, "/maps/")
    ensures req.pathname == "/maps/js-api-url" ==> Handle(req, env, up) == MapsJsApiUrl(env)
    ensures req.pathname != "/maps/js-api-url" ==> Handle(req, env, up) == MapsProxy(req, env, up.maps)
  {
    StartsWithDiffers(req.pathname, "/maps/", "/driver-location/", 1);
    StartsWithDiffers(req.pathname, "/maps/", "/weather/", 1);
  }
}
