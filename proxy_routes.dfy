/**
 * The routes that backend-weatherapi-fixed.js and backend-with-fallback.js
 * share word for word: order lookup, driver location, the Google Maps
 * JavaScript URL and the Google Maps proxy.
 */
module ProxyRoutes {
  import opened Js
  import opened Worker

  const MissingPhone: string := "手机号码不能为空"
  const TrackOrderFailed: string := "查询失败，请稍后重试"
  const MissingRouteId: string := "路线ID不能为空"
  const DriverLocationFailed: string := "获取司机位置失败，请稍后重试"

  /** `const { phone } = await request.json()`: throws on a body that is not
      JSON or is null; any other non-object gives undefined. */
  function RequestedPhone(req: Request): Read<Value> {
    match req.body
    case Threw(m) => Threw(m)
    case Got(j) => Member(Some(j), "phone")
  }

  /** A phone the order route accepts: present and truthy. */
  predicate HasPhone(req: Request) {
    RequestedPhone(req).Got? && Truthy(RequestedPhone(req).value)
  }

  function TrackOrderUrl(env: Env): string {
    Interpolated(env.backendUrl) + "/api/delivery/public/track-order"
  }

  /** POST /track-order: a missing or falsy `phone` is refused with 400 before
      any upstream call; any thrown error gives 500, including the rejection
      of a backend URL `fetch` cannot send to; otherwise the upstream body is
      forwarded unchanged, whatever the upstream status. */
  function TrackOrder(req: Request, env: Env, reply: HttpReply): (o: Outcome)
    ensures o.calls == [] <==> !HasPhone(req) || !Fetchable(TrackOrderUrl(env))
    ensures o.calls != [] ==> o.calls == [TrackOrderCall(TrackOrderUrl(env), RequestedPhone(req).value.value)]
    ensures o.response.status == 400 <==> RequestedPhone(req).Got? && !HasPhone(req)
    ensures o.response.status == 400 ==> o.response == JsonResponse(400, Failure(MissingPhone))
    ensures o.response.status == 200 <==> o.calls != [] && JsonOf(reply).Got?
    ensures o.response.status == 200 ==> o.response.body == JsonBody(JsonOf(reply).value)
    ensures o.response.status !in {200, 400} ==> o.response == JsonResponse(500, Failure(TrackOrderFailed))
    ensures o.response.headers.cors
  {
    match RequestedPhone(req)
    case Threw(_) => Outcome([], JsonResponse(500, Failure(TrackOrderFailed)))
    case Got(phone) =>
      if !Truthy(phone) then Outcome([], JsonResponse(400, Failure(MissingPhone)))
      else if !Fetchable(TrackOrderUrl(env)) then Outcome([], JsonResponse(500, Failure(TrackOrderFailed)))
      else
        var call := TrackOrderCall(TrackOrderUrl(env), phone.value);
        match JsonOf(reply)
        case Threw(_) => Outcome([call], JsonResponse(500, Failure(TrackOrderFailed)))
        case Got(data) => Outcome([call], Response(200, Headers(true, true, None), JsonBody(data)))
  }

  /** `url.pathname.split('/')[2]`. */
  function RouteId(req: Request): Option<string> {
    Part(PathParts(req.pathname), 2)
  }

  predicate HasRouteId(req: Request) {
    RouteId(req).Some? && RouteId(req).value != ""
  }

  function DriverLocationUrl(env: Env, routeId: string): string {
    Interpolated(env.backendUrl) + "/api/delivery/routes/" + routeId + "/driver-location"
  }

  /** GET /driver-location/{id}: an empty id gives 400 without an upstream
      call; otherwise the request goes out with `Authorization: ApiKey <key>`
      and the upstream body is forwarded, or 500 on any error, including the
      rejection of a backend URL `fetch` cannot send to. */
  function DriverLocation(req: Request, env: Env, reply: HttpReply): (o: Outcome)
    ensures !HasRouteId(req) ==> o == Outcome([], JsonResponse(400, Failure(MissingRouteId)))
    ensures HasRouteId(req) && !Fetchable(DriverLocationUrl(env, RouteId(req).value)) ==>
      o == Outcome([], JsonResponse(500, Failure(DriverLocationFailed)))
    ensures o.calls != [] <==> HasRouteId(req) && Fetchable(DriverLocationUrl(env, RouteId(req).value))
    ensures o.calls != [] ==>
      o.calls == [DriverLocationCall(DriverLocationUrl(env, RouteId(req).value), "ApiKey " + Interpolated(env.apiKey))]
    ensures o.calls != [] && JsonOf(reply).Got? ==>
      o.response == Response(200, Headers(true, true, None), JsonBody(JsonOf(reply).value))
    ensures o.calls != [] && JsonOf(reply).Threw? ==> o.response == JsonResponse(500, Failure(DriverLocationFailed))
    ensures o.response.headers.cors
  {
    if !HasRouteId(req) then Outcome([], JsonResponse(400, Failure(MissingRouteId)))
    else if !Fetchable(DriverLocationUrl(env, RouteId(req).value)) then
      Outcome([], JsonResponse(500, Failure(DriverLocationFailed)))
    else
      var call := DriverLocationCall(DriverLocationUrl(env, RouteId(req).value), "ApiKey " + Interpolated(env.apiKey));
      match JsonOf(reply)
      case Threw(_) => Outcome([call], JsonResponse(500, Failure(DriverLocationFailed)))
      case Got(data) => Outcome([call], Response(200, Headers(true, true, None), JsonBody(data)))
  }

  /** Without BACKEND_URL (unset, so the URL starts "undefined/", or empty, so
      it starts "/") neither backend route calls out: a request that passes
      validation ends in the 500 of the route's `catch`, whatever the backend
      would have answered. */
  lemma MissingBackendRefused(req: Request, env: Env, reply: HttpReply)
    requires !Configured(env.backendUrl)
    ensures TrackOrder(req, env, reply).calls == [] && DriverLocation(req, env, reply).calls == []
    ensures HasPhone(req) ==> TrackOrder(req, env, reply) == Outcome([], JsonResponse(500, Failure(TrackOrderFailed)))
    ensures HasRouteId(req) ==>
      DriverLocation(req, env, reply) == Outcome([], JsonResponse(500, Failure(DriverLocationFailed)))
  {
    UnsetBaseNotFetchable(env.backendUrl, "/api/delivery/public/track-order");
    if HasRouteId(req) {
      var path := "/api/delivery/routes/" + RouteId(req).value + "/driver-location";
      assert DriverLocationUrl(env, RouteId(req).value) == Interpolated(env.backendUrl) + path;
      UnsetBaseNotFetchable(env.backendUrl, path);
    }
  }

  /** A path that starts with /driver-location/ always has part 2; it is
      empty exactly when nothing sits between that prefix and the next slash. */
  lemma RouteIdAfterPrefix(req: Request, rest: string)
    requires req.pathname == "/driver-location/" + rest
    ensures RouteId(req) == Some(Split(rest, '/')[0])
    ensures !HasRouteId(req) <==> rest == "" || rest[0] == '/'
  {
    RoutePrefixPart(req.pathname, rest);
    FirstPartEmpty(rest, '/');
  }

  lemma RoutePrefixPart(pathname: string, rest: string)
    requires pathname == "/driver-location/" + rest
    ensures |PathParts(pathname)| >= 3 && PathParts(pathname)[2] == Split(rest, '/')[0]
  {
    PrefixSpelledOut(pathname, rest);
    PartAfterRoutePrefix("driver-location", rest);
  }

  /** Proof step for RoutePrefixPart, not a property of the worker: the
      route prefix regrouped around its slashes. */
  lemma PrefixSpelledOut(pathname: string, rest: string)
    requires pathname == "/driver-location/" + rest
    ensures pathname == "/" + "driver-location" + "/" + rest
  {
  }

  const MapsKeyMissing: string := "Google Maps API key not configured"

  /** GET /maps/js-api-url: the Maps JavaScript URL with the server key, or
      500 when no key is configured. */
  function MapsJsApiUrl(env: Env): (o: Outcome)
    ensures o.calls == []
    ensures o.response.status == 200 <==> Configured(env.googleMapsApiKey)
    ensures o.response.status == 200 ==> Field(o.response, "url") == Some(JStr(
      "https://maps.googleapis.com/maps/api/js?key=" + env.googleMapsApiKey.value
      + "&libraries=geometry&language=zh-CN&region=AU"))
    ensures o.response.headers.cors
  {
    if !Configured(env.googleMapsApiKey) then
      Outcome([], JsonResponse(500, map["error" := JStr(MapsKeyMissing)]))
    else
      var url := "https://maps.googleapis.com/maps/api/js?key=" + env.googleMapsApiKey.value
                 + "&libraries=geometry&language=zh-CN&region=AU";
      Outcome([], JsonResponse(200, map["url" := JStr(url), "status" := JStr("OK")]))
  }

  const AllowedServices: seq<string> := ["geocoding", "staticmap"]

  /** `allowedServices.includes(service)` for `url.pathname.split('/')[2]`. */
  predicate ServiceAllowed(req: Request) {
    var service := Part(PathParts(req.pathname), 2);
    service.Some? && service.value in AllowedServices
  }

  function MapsEndpoint(service: string): string {
    "https://maps.googleapis.com/maps/api/" + service + "/json"
  }

  /** GET /maps/{service}: a service off the allow-list gives 400 before the
      key is looked at; no key gives 500; otherwise the client query goes out
      with the server key set last, a non-OK upstream status is passed
      through, and any error gives 500. */
  function MapsProxy(req: Request, env: Env, reply: HttpReply): (o: Outcome)
    ensures !ServiceAllowed(req) ==> o == Outcome([], JsonResponse(400, map["error" := JStr("Service not allowed")]))
    ensures ServiceAllowed(req) && !Configured(env.googleMapsApiKey) ==>
      o == Outcome([], JsonResponse(500, map["error" := JStr(MapsKeyMissing)]))
    ensures ServiceAllowed(req) && Configured(env.googleMapsApiKey) ==>
      o.calls == [MapsCall(MapsEndpoint(PathParts(req.pathname)[2]), ForwardedQuery(req.query, env.googleMapsApiKey.value))]
    ensures |o.calls| == 1 && reply.Answered? && !Ok(reply.status) ==> o.response.status == reply.status
    ensures |o.calls| == 1 && reply.Answered? && Ok(reply.status) && reply.body.Got? ==>
      o.response == Response(200, Headers(true, true, None), JsonBody(reply.body.value))
    ensures |o.calls| <= 1 && o.response.headers.cors
  {
    if !ServiceAllowed(req) then Outcome([], JsonResponse(400, map["error" := JStr("Service not allowed")]))
    else if !Configured(env.googleMapsApiKey) then Outcome([], JsonResponse(500, map["error" := JStr(MapsKeyMissing)]))
    else
      var call := MapsCall(MapsEndpoint(PathParts(req.pathname)[2]), ForwardedQuery(req.query, env.googleMapsApiKey.value));
      match reply
      case NetworkFailure(m) =>
        Outcome([call], JsonResponse(500, map["error" := JStr("Maps service error"), "details" := JStr(m)]))
      case Answered(status, statusText, body) =>
        if !Ok(status) then
          Outcome([call], JsonResponse(status, map["error" := JStr("Google Maps API error: " + IntToString(status)),
                                                   "details" := JStr(statusText)]))
        else
          match body
          case Threw(m) =>
            Outcome([call], JsonResponse(500, map["error" := JStr("Maps service error"), "details" := JStr(m)]))
          case Got(data) => Outcome([call], Response(200, Headers(true, true, None), JsonBody(data)))
  }

  /** Whatever the client puts in its query, the one `key` the proxy sends
      upstream is the server's. */
  lemma MapsProxySendsServerKey(req: Request, env: Env, reply: HttpReply)
    requires |MapsProxy(req, env, reply).calls| == 1
    ensures var q := MapsProxy(req, env, reply).calls[0].query;
      Get(q, "key") == env.googleMapsApiKey && CountKey(q, "key") == 1
      && forall k :: k != "key" ==> Get(q, k) == LastValue(req.query, k)
  {
    ServerKeyOverrides(req.query, env.googleMapsApiKey.value);
  }
}
