/**
 * backend-weatherapi-fixed.js: the worker that answers `/` with a status
 * document, proxies the order and driver-location lookups and Google Maps,
 * and serves the weather from WeatherAPI.com, degrading every weather failure
 * to a dry "fallback" answer with status 200.
 */
module WeatherApiFixed {
  import opened Js
  import opened Rain
  import opened Worker
  import opened ProxyRoutes
  import opened Forecast

  /** The body of `GET /` (any method but OPTIONS), stamped with `now`, the
      ISO text of the current time. */
  function StatusDocument(now: string): map<string, Json> {
    map[
      "status" := JStr("OK"),
      "service" := JStr("Delivery Track API v3.0.0"),
      "features" := JStr("智能司机状态识别系统"),
      "timestamp" := JStr(now),
      "endpoints" := JObj(map[
        "POST /track-order" := JStr("订单查询"),
        "GET /driver-location/{route_id}" := JStr("司机位置"),
        "GET /weather/{lat}/{lng}" := JStr("天气查询 (WeatherAPI.com)"),
        "GET /maps/js-api-url" := JStr("Google Maps API"),
        "GET /maps/geocoding" := JStr("地理编码")]),
      "weather_provider" := JStr("WeatherAPI.com"),
      "smart_icons" := JObj(map[
        "normal" := JStr("正常配送 (延误≤15分钟)"),
        "late" := JStr("可能延误 (延误>15分钟)"),
        "rain" := JStr("雨天配送 (优先级最高)")])
    ]
  }

  /** The answer at `/`: 200 with the status document, stamped with `now`. */
  function StatusResponse(now: string): (r: Response)
    ensures r.status == 200 && r.headers.cors && Field(r, "timestamp") == Some(JStr(now))
  {
    JsonResponse(200, StatusDocument(now))
  }

  function WeatherApiUrl(lat: string, lng: string, key: string): string {
    "https://api.weatherapi.com/v1/current.json?key=" + key + "&q=" + lat + "," + lng + "&aqi=no"
  }

  /** The dry default every weather failure answers with. */
  function FallbackDoc(description: string, location: string, error: Option<string>): map<string, Json> {
    map[
      "success" := JBool(true),
      "isRaining" := JBool(false),
      "weather" := JStr("Unknown"),
      "description" := JStr(description),
      "temperature" := JNull,
      "location" := JStr(location),
      "provider" := JStr("fallback")
    ] + (if error.Some? then map["error" := JStr(error.value)] else map[])
  }

  const FallbackMaxAge: nat := 300
  const ForecastMaxAge: nat := 1800

  /** The forecast body of a delivered reading. */
  function ForecastDoc(r: WeatherApiReading, place: string): map<string, Json> {
    var raining := WeatherApiRaining(r.condition, r.conditionCode);
    map[
      "success" := JBool(true),
      "isRaining" := JBool(raining),
      "weather" := Or(r.text, JStr("Unknown")),
      "description" := Or(r.text, JStr("")),
      "temperature" := Or(r.tempC, JNull),
      "location" := Or(r.locationName, JStr(place)),
      "provider" := JStr("weatherapi.com"),
      "debug" := JObj(map[
        "condition" := JStr(r.condition),
        "conditionCode" := r.conditionCode,
        "isRaining" := JBool(raining)])
    ]
  }

  /** A failure degraded to the dry default, cached for 5 minutes. */
  function Degraded(description: string, location: string, error: Option<string>): (r: Response)
    ensures r.status == 200 && r.headers.cors && r.headers.maxAge == Some(FallbackMaxAge)
    ensures Field(r, "success") == Some(JBool(true)) && Field(r, "isRaining") == Some(JBool(false))
  {
    CachedJson(200, FallbackDoc(description, location, error), FallbackMaxAge)
  }

  /** A delivered reading, cached for 30 minutes. */
  function Forecasted(reading: WeatherApiReading, place: string): (r: Response)
    ensures r.status == 200 && r.headers.cors && r.headers.maxAge == Some(ForecastMaxAge)
    ensures Field(r, "success") == Some(JBool(true))
    ensures Field(r, "isRaining") == Some(JBool(WeatherApiRaining(reading.condition, reading.conditionCode)))
  {
    CachedJson(200, ForecastDoc(reading, place), ForecastMaxAge)
  }

  /** GET /weather/{lat}/{lng}: bad coordinates give 400 before anything
      else; the WeatherAPI.com call is made exactly when the coordinates are
      valid and a key is configured. */
  function Weather(req: Request, env: Env, reply: HttpReply): (o: Outcome)
    ensures var parts := PathParts(req.pathname);
      && (o.response.status == 400 <==> !ValidCoordinates(parts))
      && (!ValidCoordinates(parts) ==> o == Outcome([], JsonResponse(400, Failure(CoordinateProblem(parts).value))))
      && (o.calls == [] <==> !ValidCoordinates(parts) || !Configured(env.weatherApiKey))
      && (o.calls != [] ==> o.calls == [WeatherCall(WeatherApiUrl(parts[2], parts[3], env.weatherApiKey.value))])
    ensures o.response.headers.cors
  {
    var parts := PathParts(req.pathname);
    match CoordinateProblem(parts)
    case Some(problem) => Outcome([], JsonResponse(400, Failure(problem)))
    case None =>
      var place := LocationLabel(parts);
      if !Configured(env.weatherApiKey) then
        Outcome([], Degraded("天气API未配置，使用默认值", place, None))
      else
        var call := WeatherCall(WeatherApiUrl(parts[2], parts[3], env.weatherApiKey.value));
        var systemError := Degraded("系统暂时不可用，使用默认值", "Unknown", Some("system_error"));
        match reply
        case NetworkFailure(_) =>
          Outcome([call], Degraded("网络连接失败，使用默认值", place, Some("network_error")))
        case Answered(status, _, body) =>
          if !Ok(status) then
            Outcome([call], Degraded("天气API暂时不可用，使用默认值", place, Some("api_error_" + IntToString(status))))
          else match body
            case Threw(_) => Outcome([call], systemError)
            case Got(data) =>
              match ReadWeatherApi(data)
              case Threw(_) => Outcome([call], systemError)
              case Got(r) => Outcome([call], Forecasted(r, place))
  }

  /** Past the coordinate check the weather route never fails: a missing
      key, a network failure, a non-OK status and any exception all answer
      200 with `success: true`. */
  lemma WeatherAlwaysAnswers(req: Request, env: Env, reply: HttpReply)
    requires ValidCoordinates(PathParts(req.pathname))
    ensures var o := Weather(req, env, reply);
      o.response.status == 200 && Field(o.response, "success") == Some(JBool(true))
  {
  }

  /** Only a delivered reading is cached for 30 minutes; every fallback is
      cached for 5. */
  lemma WeatherCacheAge(req: Request, env: Env, reply: HttpReply)
    requires ValidCoordinates(PathParts(req.pathname))
    ensures var o := Weather(req, env, reply);
      o.response.headers.maxAge == Some(if o.calls != [] && WeatherApiDelivered(reply).Got? then ForecastMaxAge else FallbackMaxAge)
  {
  }

  /** The answer says rain exactly when a reading was delivered and the
      WeatherAPI.com classifier calls its condition rainy: every fallback is
      dry. */
  lemma WeatherRainVerdict(req: Request, env: Env, reply: HttpReply)
    requires ValidCoordinates(PathParts(req.pathname))
    ensures var o := Weather(req, env, reply);
      Field(o.response, "isRaining") == Some(JBool(
        o.calls != [] && WeatherApiDelivered(reply).Got?
        && WeatherApiRaining(WeatherApiDelivered(reply).value.condition, WeatherApiDelivered(reply).value.conditionCode)))
  {
  }

  const NotFoundDoc: map<string, Json> := map[
    "error" := JStr("Not Found"),
    "message" := JStr("请访问根路径查看可用的API端点"),
    "available_endpoints" := JArr([JStr("/"), JStr("/track-order"), JStr("/weather/{lat}/{lng}"), JStr("/maps/js-api-url")])
  ]

  /** `request.method === 'GET'`. */
  predicate IsGet(req: Request) { req.verb == "GET" }

  /** A request none of the routes takes: not OPTIONS, not `/`, not the
      order POST, and not a GET under /driver-location/, /weather/ or
      /maps/. */
  predicate Unrouted(req: Request) {
    && req.verb != "OPTIONS" && req.pathname != "/"
    && !(req.verb == "POST" && req.pathname == "/track-order")
    && !(IsGet(req) && (StartsWith(req.pathname, "/driver-location/") || StartsWith(req.pathname, "/weather/")
                        || StartsWith(req.pathname, "/maps/")))
  }

  /** The whole `fetch` handler: OPTIONS first, then `/` for any method, then
      the routes in source order, then a JSON 404 listing the endpoints.
      `now` is the clock. */
  function Handle(req: Request, env: Env, up: Upstream, now: string): (o: Outcome)
    ensures req.verb == "OPTIONS" ==> o == Outcome([], Preflight)
    ensures req.verb != "OPTIONS" && req.pathname == "/" ==>
      o.calls == [] && o.response.status == 200 && Field(o.response, "timestamp") == Some(JStr(now))
    ensures o.response.headers.cors
    ensures |o.calls| <= 1
    ensures req.verb !in {"GET", "POST"} ==> o.calls == []
    ensures o.calls == [] && o.response.status == 404 ==> o.response == JsonResponse(404, NotFoundDoc)
    ensures Unrouted(req) <==> o == Outcome([], JsonResponse(404, NotFoundDoc))
  {
    if req.verb == "OPTIONS" then Outcome([], Preflight)
    else if req.pathname == "/" then Outcome([], StatusResponse(now))
    else if req.verb == "POST" && req.pathname == "/track-order" then TrackOrder(req, env, up.trackOrder)
    else if IsGet(req) && StartsWith(req.pathname, "/driver-location/") then DriverLocation(req, env, up.driverLocation)
    else if IsGet(req) && StartsWith(req.pathname, "/weather/") then Weather(req, env, up.weather)
    else if IsGet(req) && req.pathname == "/maps/js-api-url" then MapsJsApiUrl(env)
    else if IsGet(req) && StartsWith(req.pathname, "/maps/") then MapsProxy(req, env, up.maps)
    else Outcome([], JsonResponse(404, NotFoundDoc))
  }

  /** Every GET under /weather/ reaches the weather route. */
  lemma WeatherRoute(req: Request, env: Env, up: Upstream, now: string)
    requires IsGet(req) && StartsWith(req.pathname, "/weather/")
    ensures Handle(req, env, up, now) == Weather(req, env, up.weather)
  {
    StartsWithDiffers(req.pathname, "/weather/", "/driver-location/", 1);
  }

  /** GET /maps/js-api-url is answered by the key route, not forwarded by
      the generic proxy; every other GET under /maps/ is forwarded. */
  lemma MapsRoutes(req: Request, env: Env, up: Upstream, now: string)
    requires IsGet(req) && StartsWith(req.pathname, "/maps/")
    ensures req.pathname == "/maps/js-api-url" ==> Handle(req, env, up, now) == MapsJsApiUrl(env)
    ensures req.pathname != "/maps/js-api-url" ==> Handle(req, env, up, now) == MapsProxy(req, env, up.maps)
  {
    StartsWithDiffers(req.pathname, "/maps/", "/driver-location/", 1);
    StartsWithDiffers(req.pathname, "/maps/", "/weather/", 1);
  }

  /** GET /driver-location/ with nothing before the next slash is refused
      with 400 before the backend is called. */
  lemma EmptyRouteIdRefused(req: Request, env: Env, up: Upstream, now: string, rest: string)
    requires IsGet(req) && req.pathname == "/driver-location/" + rest && (rest == "" || rest[0] == '/')
    ensures Handle(req, env, up, now) == Outcome([], JsonResponse(400, Failure(MissingRouteId)))
  {
    RouteIdAfterPrefix(req, rest);
    assert StartsWith(req.pathname, "/driver-location/");
  }
}
