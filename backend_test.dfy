/**
 * backend-test.js: a cut-down worker with a status document at `/`, the
 * order lookup (which refuses to call out without BACKEND_URL and reports
 * the thrown message), an OpenWeatherMap weather route whose failures are
 * `success: false`, and a JSON 404 that echoes the path and method.
 */
module BackendTest {
  import opened Js
  import opened Rain
  import opened Worker
  import opened Forecast
  import ProxyRoutes

  /** The body of `/` (any method but OPTIONS), stamped with `now`. */
  function StatusDocument(now: string): map<string, Json> {
    map[
      "status" := JStr("OK"),
      "message" := JStr("Delivery Track API v3.0.0 - 智能司机状态识别系统"),
      "timestamp" := JStr(now),
      "endpoints" := JArr([
        JStr("POST /track-order"), JStr("GET /driver-location/{route_id}"), JStr("GET /weather/{lat}/{lng}"),
        JStr("GET /maps/js-api-url"), JStr("GET /maps/geocoding")])
    ]
  }

  const MissingBackendUrl: string := "BACKEND_URL环境变量未配置"

  /** The 500 of the order route's `catch`: the thrown message as `details`. */
  function OrderCaught(message: string): Response {
    JsonResponse(500, Failure(ProxyRoutes.TrackOrderFailed)["details" := JStr(message)])
  }

  /** POST /track-order: a missing or falsy phone gives 400, then an unset
      BACKEND_URL gives 500, both before any upstream call; a thrown error
      gives 500 with its message, including the rejection of a backend URL
      `fetch` cannot send to; otherwise the upstream body is forwarded. */
  function TrackOrder(req: Request, env: Env, reply: HttpReply): (o: Outcome)
    ensures o.calls == [] <==>
      !ProxyRoutes.HasPhone(req) || !Configured(env.backendUrl) || !Fetchable(ProxyRoutes.TrackOrderUrl(env))
    ensures o.calls != [] ==> o.calls == [TrackOrderCall(env.backendUrl.value + "/api/delivery/public/track-order",
                                                         ProxyRoutes.RequestedPhone(req).value.value)]
    ensures o.response.status == 400 <==> ProxyRoutes.RequestedPhone(req).Got? && !ProxyRoutes.HasPhone(req)
    ensures ProxyRoutes.HasPhone(req) && !Configured(env.backendUrl) ==> o.response == JsonResponse(500, Failure(MissingBackendUrl))
    ensures ProxyRoutes.HasPhone(req) && Configured(env.backendUrl) && !Fetchable(ProxyRoutes.TrackOrderUrl(env)) ==>
      o.response == OrderCaught(TypeErrorMessage)
    ensures o.response.status == 200 <==> o.calls != [] && JsonOf(reply).Got?
    ensures o.calls != [] && JsonOf(reply).Threw? ==> o.response == OrderCaught(JsonOf(reply).message)
    ensures o.response.status in {200, 400, 500}
    ensures o.response.headers.cors
  {
    match ProxyRoutes.RequestedPhone(req)
    case Threw(m) => Outcome([], OrderCaught(m))
    case Got(phone) =>
      if !Truthy(phone) then Outcome([], JsonResponse(400, Failure(ProxyRoutes.MissingPhone)))
      else if !Configured(env.backendUrl) then Outcome([], JsonResponse(500, Failure(MissingBackendUrl)))
      else if !Fetchable(ProxyRoutes.TrackOrderUrl(env)) then Outcome([], OrderCaught(TypeErrorMessage))
      else
        var call := TrackOrderCall(env.backendUrl.value + "/api/delivery/public/track-order", phone.value);
        match JsonOf(reply)
        case Threw(m) => Outcome([call], OrderCaught(m))
        case Got(data) => Outcome([call], Response(200, Headers(true, true, None), JsonBody(data)))
  }

  /** A weather failure: `success: false`, an error text, `isRaining: false`
      and what else the branch reports; no Cache-Control. */
  function Failed(error: string, extra: map<string, Json>): (r: Response)
    ensures r.status == 200 && r.headers.cors && r.headers.maxAge == None
    ensures Field(r, "success") == Some(JBool(false)) && Field(r, "isRaining") == Some(JBool(false))
  {
    JsonResponse(200, extra + map["success" := JBool(false), "error" := JStr(error), "isRaining" := JBool(false)])
  }

  /** GET /weather/{lat}/{lng}: bad coordinates give 400 before anything
      else; the OpenWeatherMap call is made exactly when the coordinates are
      valid and a key is configured. A rejected fetch is not caught on its
      own: it lands in the route's `catch`. */
  function Weather(req: Request, env: Env, reply: HttpReply): (o: Outcome)
    ensures var parts := PathParts(req.pathname);
      && (o.response.status == 400 <==> !ValidCoordinates(parts))
      && (!ValidCoordinates(parts) ==> o == Outcome([], JsonResponse(400, Failure(CoordinateProblem(parts).value))))
      && (o.calls == [] <==> !ValidCoordinates(parts) || !Configured(env.weatherApiKey))
      && (o.calls != [] ==> o.calls == [WeatherCall(OwmUrl(parts[2], parts[3], env.weatherApiKey.value))])
    ensures o.response.status in {200, 400}
    ensures o.response.headers.cors
  {
    var parts := PathParts(req.pathname);
    match CoordinateProblem(parts)
    case Some(problem) => Outcome([], JsonResponse(400, Failure(problem)))
    case None =>
      if !Configured(env.weatherApiKey) then
        Outcome([], Failed("天气API未配置", map["message" := JStr("WEATHER_API_KEY环境变量未设置")]))
      else
        var call := WeatherCall(OwmUrl(parts[2], parts[3], env.weatherApiKey.value));
        if reply.Answered? && !Ok(reply.status) then
          Outcome([call], Failed("天气API调用失败", map["status" := JNum(reply.status as real)]))
        else match OwmDelivered(reply)
          case Threw(m) => Outcome([call], Failed("天气查询服务异常", map["details" := JStr(m)]))
          case Got(r) => Outcome([call], CachedJson(200, OwmForecast(r, LocationLabel(parts)), 1800))
  }

  /** Past the coordinate check the route answers 200; it reports success,
      and is cached, exactly when a reading was delivered, and says rain
      exactly when that reading's `main` is rain, drizzle or thunderstorm. */
  lemma WeatherReport(req: Request, env: Env, reply: HttpReply)
    requires ValidCoordinates(PathParts(req.pathname))
    ensures var o := Weather(req, env, reply);
      var delivered := o.calls != [] && OwmDelivered(reply).Got?;
      && o.response.status == 200
      && Field(o.response, "success") == Some(JBool(delivered))
      && (o.response.headers.maxAge.Some? <==> delivered)
      && Field(o.response, "isRaining") == Some(JBool(delivered && OwmRaining(OwmDelivered(reply).value.weatherMain)))
      && (o.calls != [] && reply.Answered? && !Ok(reply.status) ==> Field(o.response, "status") == Some(JNum(reply.status as real)))
  {
  }

  /** The 404: the path and method echoed back. */
  function NotFound(req: Request): (r: Response)
    ensures r.status == 404 && r.headers.cors
    ensures Field(r, "path") == Some(JStr(req.pathname)) && Field(r, "method") == Some(JStr(req.verb))
  {
    JsonResponse(404, map["error" := JStr("Not Found"), "path" := JStr(req.pathname), "method" := JStr(req.verb)])
  }

  /** A request none of the routes takes. */
  predicate Unrouted(req: Request) {
    req.verb != "OPTIONS" && req.pathname != "/"
    && !(req.verb == "POST" && req.pathname == "/track-order")
    && !(req.verb == "GET" && StartsWith(req.pathname, "/weather/"))
  }

  /** The whole `fetch` handler: OPTIONS, then `/` for any method, then the
      order and weather routes, then the JSON 404. There is no
      driver-location or Maps route. */
  function Handle(req: Request, env: Env, up: Upstream, now: string): (o: Outcome)
    ensures req.verb == "OPTIONS" ==> o == Outcome([], Preflight)
    ensures o.response.headers.cors
    ensures |o.calls| <= 1 && (o.calls != [] ==> o.calls[0].TrackOrderCall? || o.calls[0].WeatherCall?)
    ensures req.verb != "OPTIONS" && req.pathname == "/" ==> o.calls == [] && o.response.status == 200
    ensures o.response.status == 404 <==> Unrouted(req)
    ensures o.response.status == 404 ==> o == Outcome([], NotFound(req))
  {
    if req.verb == "OPTIONS" then Outcome([], Preflight)
    else if req.pathname == "/" then Outcome([], JsonResponse(200, StatusDocument(now)))
    else if req.verb == "POST" && req.pathname == "/track-order" then TrackOrder(req, env, up.trackOrder)
    else if req.verb == "GET" && StartsWith(req.pathname, "/weather/") then Weather(req, env, up.weather)
    else Outcome([], NotFound(req))
  }

  /** Every GET under /weather/ reaches the weather route. */
  lemma WeatherRoute(req: Request, env: Env, up: Upstream, now: string)
    requires req.verb == "GET" && StartsWith(req.pathname, "/weather/")
    ensures Handle(req, env, up, now) == Weather(req, env, up.weather)
  {
  }

  /** The driver-location route advertised at `/` is not served: it gets
      the 404 without an upstream call. */
  lemma DriverLocationNotServed(req: Request, env: Env, up: Upstream, now: string)
    requires req.verb == "GET" && StartsWith(req.pathname, "/driver-location/")
    ensures Handle(req, env, up, now).calls == [] && Handle(req, env, up, now).response.status == 404
  {
    StartsWithDiffers(req.pathname, "/driver-location/", "/weather/", 1);
  }
}
