/**
 * debug-weather.js: a diagnostic worker with two routes. `/` reports which
 * environment bindings are set. GET /weather/{lat}/{lng} calls
 * OpenWeatherMap like the other workers, but reports every failure as
 * `success: false` with a `debug` record and caches only a real forecast.
 * Anything else gets a JSON 404 that echoes the path and method.
 */
module DebugWeather {
  import opened Js
  import opened Rain
  import opened Worker
  import opened Forecast

  /** `env.X ? 'CONFIGURED' : 'MISSING'`. */
  function Presence(binding: Option<string>): (r: Json)
    ensures r == JStr("CONFIGURED") <==> Configured(binding)
    ensures r == JStr("CONFIGURED") || r == JStr("MISSING")
  {
    if Configured(binding) then JStr("CONFIGURED") else JStr("MISSING")
  }

  /** The body of `/` (any method but OPTIONS), stamped with `now`. */
  function EnvironmentReport(env: Env, now: string): map<string, Json> {
    map[
      "status" := JStr("Delivery Track API v3.0.0 - Debug Mode"),
      "timestamp" := JStr(now),
      "environment" := JObj(map[
        "BACKEND_URL" := Presence(env.backendUrl),
        "API_KEY" := Presence(env.apiKey),
        "GOOGLE_MAPS_API_KEY" := Presence(env.googleMapsApiKey),
        "WEATHER_API_KEY" := Presence(env.weatherApiKey),
        "WEATHER_API_KEY_LENGTH" := JNum(if Configured(env.weatherApiKey) then |env.weatherApiKey.value| as real else 0.0)])
    ]
  }

  /** `Object.keys(env)`: the names of the bindings that are set, even to
      the empty string. */
  function EnvironmentKeys(env: Env): (keys: seq<Json>)
    ensures JStr("WEATHER_API_KEY") in keys <==> env.weatherApiKey.Some?
    ensures |keys| <= 4
  {
    (if env.backendUrl.Some? then [JStr("BACKEND_URL")] else [])
    + (if env.apiKey.Some? then [JStr("API_KEY")] else [])
    + (if env.googleMapsApiKey.Some? then [JStr("GOOGLE_MAPS_API_KEY")] else [])
    + (if env.weatherApiKey.Some? then [JStr("WEATHER_API_KEY")] else [])
  }

  // ------------------------------------------------- masking the API key

  /** The request URL as the network-failure report renders it:
      `weatherUrl.replace(env.WEATHER_API_KEY, 'HIDDEN')`, which rewrites the
      first place the key text occurs, wherever that is. */
  function MaskedUrlAsWritten(lat: string, lng: string, key: string): string {
    ReplaceFirst(OwmUrl(lat, lng, key), key, "HIDDEN")
  }

  /** A key that also occurs in the fixed part of the URL stays visible: with
      key "api" the host name is masked and the `appid` parameter is not. */
  lemma MaskLeavesKeyVisible(lat: string, lng: string)
    ensures MaskedUrlAsWritten(lat, lng, "api") == "https://" + "HIDDEN" + OwmDomain + OwmPath(lat, lng, "api")
  {
    var a, c := "https://", OwmDomain + OwmPath(lat, lng, "api");
    assert OwmUrl(lat, lng, "api") == a + "api" + c;
    forall j | 0 <= j < |a| ensures !OccursAt(a + "api" + c, "api", j) {
      assert (a + "api" + c)[j] == a[j] && a[j] != 'a';
      assert (a + "api" + c)[j..j + 3][0] == a[j];
    }
    ReplaceFirstBetween(a, "api", c, "HIDDEN");
  }

  /** The URL with the `appid` value itself replaced: what the report is
      meant to show. The handler below reports `MaskedUrlAsWritten`; the two
      agree whenever the key does not occur before its `appid` value. */
  function MaskedUrl(lat: string, lng: string): string {
    OwmUrl(lat, lng, "HIDDEN")
  }

  /** The URL up to the `appid` value. */
  function OwmHead(lat: string, lng: string): string {
    "https://" + OwmHost + ("/data/2.5/weather?lat=" + lat + "&lon=" + lng + "&appid=")
  }

  /** Proof step for MaskedUrlAgrees, not a property of the worker: the
      request URL regrouped as its head, the key and the tail. */
  lemma OwmUrlAroundKey(lat: string, lng: string, key: string)
    ensures OwmUrl(lat, lng, key) == OwmHead(lat, lng) + key + "&units=metric"
  {
  }

  /** The corrected report agrees with the `replace` of the source whenever
      the key's first occurrence is the `appid` value. */
  lemma MaskedUrlAgrees(lat: string, lng: string, key: string)
    requires forall j :: 0 <= j < |OwmHead(lat, lng)| ==> !OccursAt(OwmUrl(lat, lng, key), key, j)
    ensures MaskedUrlAsWritten(lat, lng, key) == MaskedUrl(lat, lng)
  {
    OwmUrlAroundKey(lat, lng, key);
    OwmUrlAroundKey(lat, lng, "HIDDEN");
    ReplaceFirstBetween(OwmHead(lat, lng), key, "&units=metric", "HIDDEN");
  }

  // ------------------------------------------------------- the weather

  /** The `errorText` of a non-OK reply: the body's `message`, else its
      `error`, else `HTTP <status>`; a body that is not JSON, or is null,
      gives `HTTP <status> <statusText>`. */
  function ErrorDetails(status: int, statusText: string, body: Read<Json>): (e: Json)
    ensures body.Threw? || body == Got(JNull) ==> e == JStr("HTTP " + IntToString(status) + " " + statusText)
    ensures body.Got? && Truthy(OptMember(Some(body.value), "message")) ==> Some(e) == OptMember(Some(body.value), "message")
  {
    var plain := JStr("HTTP " + IntToString(status) + " " + statusText);
    match body
    case Threw(_) => plain
    case Got(data) =>
      match Member(Some(data), "message")
      case Threw(_) => plain
      case Got(message) =>
        if Truthy(message) then message.value
        else
          var error := OptMember(Some(data), "error");
          if Truthy(error) then error.value else JStr("HTTP " + IntToString(status))
  }

  /** Every failure of the weather route: `success: false`, an error text,
      `isRaining: false` and a debug record; no Cache-Control. */
  function Failed(error: string, debug: map<string, Json>): (r: Response)
    ensures r.status == 200 && r.headers.cors && r.headers.maxAge == None
    ensures Field(r, "success") == Some(JBool(false)) && Field(r, "isRaining") == Some(JBool(false))
  {
    JsonResponse(200, map["success" := JBool(false), "error" := JStr(error), "isRaining" := JBool(false), "debug" := JObj(debug)])
  }

  /** A delivered reading with its debug record, cached for 30 minutes. */
  function Forecasted(reading: OwmReading, place: string, keyLength: Json): (r: Response)
    ensures r.status == 200 && r.headers.cors && r.headers.maxAge == Some(1800)
    ensures Field(r, "success") == Some(JBool(true))
    ensures Field(r, "isRaining") == Some(JBool(OwmRaining(reading.weatherMain)))
  {
    CachedJson(200, OwmForecast(reading, place)["debug" := JObj(map[
      "weatherMain" := JStr(reading.weatherMain),
      "fullWeatherData" := Or(reading.first, JObj(map[])),
      "keyLength" := keyLength])], 1800)
  }

  /** GET /weather/{lat}/{lng}: bad coordinates give 400 before anything
      else; the OpenWeatherMap call is made exactly when the coordinates are
      valid and a key is configured. */
  function Weather(req: Request, env: Env, reply: HttpReply): (o: Outcome)
    ensures var parts := PathParts(req.pathname);
      && (o.response.status == 400 <==> !ValidCoordinates(parts))
      && (o.calls == [] <==> !ValidCoordinates(parts) || !Configured(env.weatherApiKey))
      && (o.calls != [] ==> o.calls == [WeatherCall(OwmUrl(parts[2], parts[3], env.weatherApiKey.value))])
      && (!ValidCoordinates(parts) ==> Field(o.response, "error") == Some(JStr(CoordinateProblem(parts).value)))
      && (!ValidCoordinates(parts) ==> Field(o.response, "isRaining") == None)
    ensures o.response.status in {200, 400}
    ensures o.response.headers.cors
  {
    var parts := PathParts(req.pathname);
    if |parts| < 4 then
      Outcome([], JsonResponse(400, Failure(MissingCoordinates)["debug" := JObj(map[
        "pathParts" := JArr(seq(|parts|, i requires 0 <= i < |parts| => JStr(parts[i]))),
        "pathLength" := JNum(|parts| as real)])]))
    else if !ParsesAsNumber(parts[2]) || !ParsesAsNumber(parts[3]) then
      Outcome([], JsonResponse(400, Failure(InvalidCoordinates)["debug" := JObj(map[
        "lat" := JStr(parts[2]), "lng" := JStr(parts[3])])]))
    else if !Configured(env.weatherApiKey) then
      Outcome([], Failed("天气API未配置", map[
        "weatherKeyExists" := JBool(false), "environmentKeys" := JArr(EnvironmentKeys(env))]))
    else
      var place := LocationLabel(parts);
      var key := env.weatherApiKey.value;
      var keyLength := JNum(|key| as real);
      var call := WeatherCall(OwmUrl(parts[2], parts[3], key));
      match reply
      case NetworkFailure(m) =>
        Outcome([call], Failed("网络请求失败", map[
          "weatherUrl" := JStr(MaskedUrlAsWritten(parts[2], parts[3], key)), "networkError" := JStr(m), "keyLength" := keyLength]))
      case Answered(status, statusText, body) =>
        if !Ok(status) then
          Outcome([call], Failed("天气API调用失败", map[
            "status" := JNum(status as real), "statusText" := JStr(statusText),
            "errorDetails" := ErrorDetails(status, statusText, body), "keyLength" := keyLength]))
        else match OwmDelivered(reply)
          case Threw(m) =>
            Outcome([call], Failed("天气查询服务异常", map["exceptionMessage" := JStr(m), "keyExists" := JBool(true)]))
          case Got(r) => Outcome([call], Forecasted(r, place, keyLength))
  }

  /** Past the coordinate check the route answers 200; it reports success,
      and is cached, exactly when a reading was delivered, and says rain
      exactly when that reading's `main` is rain, drizzle or thunderstorm. */
  lemma WeatherReport(req: Request, env: Env, reply: HttpReply)
    requires ValidCoordinates(PathParts(req.pathname))
    ensures var o := Weather(req, env, reply);
      var delivered := o.calls != [] && OwmDelivered(reply).Got?;
      && o.response.status == 200
      && Field(o.response, "success") == Some(JBool(delivered))
      && (o.response.headers.maxAge.Some? <==> delivered)
      && Field(o.response, "isRaining") == Some(JBool(delivered && OwmRaining(OwmDelivered(reply).value.weatherMain)))
  {
  }

  /** On a network failure the report shows the URL after `replace`: the
      first occurrence of the key masked. That is the URL with
      `appid=HIDDEN` when the key does not occur earlier; with key "api" it
      is the host that is masked, and the key stays in `appid`. */
  lemma NetworkFailureReport(req: Request, env: Env, m: string)
    requires ValidCoordinates(PathParts(req.pathname)) && Configured(env.weatherApiKey)
    ensures var o := Weather(req, env, NetworkFailure(m));
      var parts := PathParts(req.pathname);
      var key := env.weatherApiKey.value;
      var shown := OptMember(Field(o.response, "debug"), "weatherUrl");
      && shown == Some(JStr(MaskedUrlAsWritten(parts[2], parts[3], key)))
      && ((forall j :: 0 <= j < |OwmHead(parts[2], parts[3])| ==> !OccursAt(OwmUrl(parts[2], parts[3], key), key, j))
          ==> shown == Some(JStr(MaskedUrl(parts[2], parts[3]))))
      && (key == "api" ==> shown == Some(JStr("https://" + "HIDDEN" + OwmDomain + OwmPath(parts[2], parts[3], "api"))))
  {
    var parts := PathParts(req.pathname);
    var key := env.weatherApiKey.value;
    if forall j :: 0 <= j < |OwmHead(parts[2], parts[3])| ==> !OccursAt(OwmUrl(parts[2], parts[3], key), key, j) {
      MaskedUrlAgrees(parts[2], parts[3], key);
    }
    if key == "api" {
      MaskLeavesKeyVisible(parts[2], parts[3]);
    }
  }

  /** The 404: the path and method echoed back. */
  function NotFound(req: Request): (r: Response)
    ensures r.status == 404 && Field(r, "path") == Some(JStr(req.pathname)) && Field(r, "method") == Some(JStr(req.verb))
  {
    JsonResponse(404, map["error" := JStr("Not Found"), "path" := JStr(req.pathname), "method" := JStr(req.verb)])
  }

  /** A request none of the routes takes. */
  predicate Unrouted(req: Request) {
    req.verb != "OPTIONS" && req.pathname != "/" && !(req.verb == "GET" && StartsWith(req.pathname, "/weather/"))
  }

  /** The whole `fetch` handler: OPTIONS, then `/` for any method, then the
      weather route, then the JSON 404. No route but the weather one calls
      anything upstream. */
  function Handle(req: Request, env: Env, up: Upstream, now: string): (o: Outcome)
    ensures req.verb == "OPTIONS" ==> o == Outcome([], Preflight)
    ensures o.response.headers.cors
    ensures |o.calls| <= 1 && (o.calls != [] ==> o.calls[0].WeatherCall?)
    ensures req.verb != "OPTIONS" && req.pathname == "/" ==> o.calls == [] && o.response.status == 200
    ensures o.response.status == 404 <==> Unrouted(req)
    ensures o.response.status == 404 ==> o == Outcome([], NotFound(req))
  {
    if req.verb == "OPTIONS" then Outcome([], Preflight)
    else if req.pathname == "/" then Outcome([], JsonResponse(200, EnvironmentReport(env, now)))
    else if req.verb == "GET" && StartsWith(req.pathname, "/weather/") then Weather(req, env, up.weather)
    else Outcome([], NotFound(req))
  }

  /** Every GET under /weather/ reaches the weather route. */
  lemma WeatherRoute(req: Request, env: Env, up: Upstream, now: string)
    requires req.verb == "GET" && StartsWith(req.pathname, "/weather/")
    ensures Handle(req, env, up, now) == Weather(req, env, up.weather)
  {
  }

  /** The report at `/` gives the key's length only when it is set. */
  lemma ReportShowsKeyLength(req: Request, env: Env, up: Upstream, now: string)
    requires req.verb != "OPTIONS" && req.pathname == "/"
    ensures var o := Handle(req, env, up, now);
      OptMember(Field(o.response, "environment"), "WEATHER_API_KEY_LENGTH")
        == Some(JNum(if Configured(env.weatherApiKey) then |env.weatherApiKey.value| as real else 0.0))
  {
  }
}
