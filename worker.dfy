/**
 * What the four Cloudflare Worker `fetch` handlers have in common: the
 * request, the environment bindings, the response (status, CORS headers,
 * JSON content type, `Cache-Control` max-age and body), the upstream calls a
 * handler makes and what those calls return, and the query copying of the
 * Google Maps proxy (`URLSearchParams.set` in a `forEach` loop).
 *
 * A handler is a function from the request, the environment and the replies
 * the upstream services would give to an `Outcome`: the calls it made, in
 * order, and the response. A reply is consulted only when its call is made,
 * so "no upstream call" reads `calls == []`.
 */
module Worker {
  import opened Js

  /** An incoming request: method, `url.pathname`, the decoded query pairs of
      `url.searchParams` in order, and `await request.json()`. */
  datatype Request = Request(verb: string, pathname: string, query: seq<(string, string)>, body: Read<Json>)

  /** The environment bindings a worker reads; `None` is an unset binding. */
  datatype Env = Env(
    backendUrl: Option<string>,
    apiKey: Option<string>,
    googleMapsApiKey: Option<string>,
    weatherApiKey: Option<string>)

  /** `!!env.X`: set and not empty. */
  predicate Configured(binding: Option<string>) {
    binding.Some? && binding.value != ""
  }

  /** `${env.X}` in a template literal: an unset binding reads "undefined". */
  function Interpolated(binding: Option<string>): string {
    match binding
    case None => "undefined"
    case Some(s) => s
  }

  /** `cors`: the three Access-Control-Allow-* headers; `jsonContent`:
      `Content-Type: application/json`; `maxAge`: `Cache-Control: public, max-age=N`. */
  datatype Headers = Headers(cors: bool, jsonContent: bool, maxAge: Option<nat>)

  datatype Body = NullBody | TextBody(text: string) | JsonBody(doc: Json)

  datatype Response = Response(status: int, headers: Headers, body: Body)

  /** What `fetch` to an upstream service gives: a rejected promise, or a
      response with its status, status text and `await response.json()`. */
  datatype HttpReply =
    | NetworkFailure(message: string)
    | Answered(status: int, statusText: string, body: Read<Json>)

  /** Whether `fetch` sends a request to `url` at all. A Worker has no base
      URL, so only an absolute URL with the http: or https: scheme (in any
      case) goes out; anything else, such as the "undefined/..." of an unset
      binding or the "/..." of an empty one, rejects with a TypeError before
      any request is made. */
  predicate Fetchable(url: string) {
    StartsWith(Lower(url), "http:") || StartsWith(Lower(url), "https:")
  }

  /** A URL built from an unset or empty binding followed by a path is not
      fetched. */
  lemma UnsetBaseNotFetchable(binding: Option<string>, path: string)
    requires !Configured(binding) && |path| > 0 && path[0] == '/'
    ensures !Fetchable(Interpolated(binding) + path)
  {
    var url := Interpolated(binding) + path;
    assert url[0] == 'u' || url[0] == '/';
    assert Lower(url)[0] == LowerChar(url[0]);
  }

  /** `response.ok`. */
  predicate Ok(status: int) {
    200 <= status <= 299
  }

  /** `await (await fetch(...)).json()` as one read: it throws when the fetch
      rejects or the body is not JSON. The status is not looked at. */
  function JsonOf(reply: HttpReply): Read<Json> {
    match reply
    case NetworkFailure(m) => Threw(m)
    case Answered(_, _, body) => body
  }

  /** The replies the upstream services would give, one per kind of call. */
  datatype Upstream = Upstream(trackOrder: HttpReply, driverLocation: HttpReply, weather: HttpReply, maps: HttpReply)

  /** An upstream call: its URL and what the worker adds to it. */
  datatype Call =
    | TrackOrderCall(url: string, phone: Json)
    | DriverLocationCall(url: string, authorization: string)
    | WeatherCall(url: string)
    | MapsCall(url: string, query: seq<(string, string)>)

  datatype Outcome = Outcome(calls: seq<Call>, response: Response)

  /** `new Response(null, { headers: corsHeaders })`. */
  const Preflight: Response := Response(200, Headers(true, false, None), NullBody)

  /** A JSON body with the CORS headers and no caching. */
  function JsonResponse(status: int, doc: map<string, Json>): Response {
    Response(status, Headers(true, true, None), JsonBody(JObj(doc)))
  }

  /** A JSON body with the CORS headers and `Cache-Control: public, max-age=N`. */
  function CachedJson(status: int, doc: map<string, Json>, maxAge: nat): Response {
    Response(status, Headers(true, true, Some(maxAge)), JsonBody(JObj(doc)))
  }

  /** A top-level member of a JSON response body. */
  function Field(r: Response, key: string): Value {
    if r.body.JsonBody? then OptMember(Some(r.body.doc), key) else None
  }

  /** The body of every validation and upstream-failure error of the order
      and location routes: `{ success: false, error }`. */
  function Failure(error: string): map<string, Json> {
    map["success" := JBool(false), "error" := JStr(error)]
  }

  function PathParts(pathname: string): seq<string> {
    Split(pathname, '/')
  }

  /** The coordinates check of every weather route: at least four path parts
      and `parseFloat` gives a number for parts 2 and 3. */
  predicate ValidCoordinates(parts: seq<string>) {
    |parts| >= 4 && ParsesAsNumber(parts[2]) && ParsesAsNumber(parts[3])
  }

  const MissingCoordinates: string := "缺少经纬度参数"
  const InvalidCoordinates: string := "无效的经纬度参数"

  /** The two 400 checks every weather route makes before anything else: fewer
      than four path parts, then a latitude or longitude that `parseFloat`
      turns into NaN. */
  function CoordinateProblem(parts: seq<string>): (e: Option<string>)
    ensures e == None <==> ValidCoordinates(parts)
    ensures e == Some(MissingCoordinates) <==> |parts| < 4
    ensures e == Some(InvalidCoordinates) <==> |parts| >= 4 && !ValidCoordinates(parts)
  {
    if |parts| < 4 then Some(MissingCoordinates)
    else if !ParsesAsNumber(parts[2]) || !ParsesAsNumber(parts[3]) then Some(InvalidCoordinates)
    else None
  }

  /** The `${lat},${lng}` location label (the model renders the path texts). */
  function LocationLabel(parts: seq<string>): string
    requires |parts| >= 4
  {
    parts[2] + "," + parts[3]
  }

  const OwmDomain: string := ".openweathermap.org"
  const OwmHost: string := "api" + OwmDomain

  /** The OpenWeatherMap current-weather URL of three of the workers. */
  function OwmUrl(lat: string, lng: string, key: string): string {
    "https://" + OwmHost + OwmPath(lat, lng, key)
  }

  function OwmPath(lat: string, lng: string, key: string): string {
    "/data/2.5/weather?lat=" + lat + "&lon=" + lng + "&appid=" + key + "&units=metric"
  }

  /** For a path that starts with `/<name>/`, part 2 exists and is the text
      after the second slash up to the next one. */
  lemma PartAfterRoutePrefix(name: string, rest: string)
    requires '/' !in name
    ensures |PathParts("/" + name + "/" + rest)| >= 3
    ensures PathParts("/" + name + "/" + rest)[2] == Split(rest, '/')[0]
  {
    SplitAfterSeparator(name, '/', rest);
    SplitAfterSeparator("", '/', name + "/" + rest);
    assert "" + "/" + (name + "/" + rest) == "/" + name + "/" + rest;
  }

  // ------------------------------------------- URLSearchParams, as a list

  type Params = seq<(string, string)>

  /** `params.get(k)`: the first value for `k`. */
  function Get(ps: Params, k: string): Option<string> {
    if |ps| == 0 then None else if ps[0].0 == k then Some(ps[0].1) else Get(ps[1..], k)
  }

  function CountKey(ps: Params, k: string): nat {
    if |ps| == 0 then 0 else (if ps[0].0 == k then 1 else 0) + CountKey(ps[1..], k)
  }

  function WithoutKey(ps: Params, k: string): Params {
    if |ps| == 0 then [] else if ps[0].0 == k then WithoutKey(ps[1..], k) else [ps[0]] + WithoutKey(ps[1..], k)
  }

  /** `params.set(k, v)`: the first pair for `k` takes the value `v` and the
      other pairs for `k` are removed; with no pair for `k`, one is appended. */
  function SetParam(ps: Params, k: string, v: string): Params {
    if |ps| == 0 then [(k, v)]
    else if ps[0].0 == k then [(k, v)] + WithoutKey(ps[1..], k)
    else [ps[0]] + SetParam(ps[1..], k, v)
  }

  /** The client's pairs copied one by one with `set`, in order. */
  function CopyParams(query: Params): Params {
    if |query| == 0 then []
    else SetParam(CopyParams(query[..|query| - 1]), query[|query| - 1].0, query[|query| - 1].1)
  }

  /** The query the Maps proxy forwards: the client's pairs, then the server key. */
  function ForwardedQuery(query: Params, serverKey: string): Params {
    SetParam(CopyParams(query), "key", serverKey)
  }

  /** The value of the last pair for `k`: what repeated `set` calls leave. */
  function LastValue(query: Params, k: string): Option<string> {
    if |query| == 0 then None
    else if query[|query| - 1].0 == k then Some(query[|query| - 1].1)
    else LastValue(query[..|query| - 1], k)
  }

  lemma {:induction false} WithoutKeyGet(ps: Params, k: string, j: string)
    ensures Get(WithoutKey(ps, k), j) == if j == k then None else Get(ps, j)
    ensures CountKey(WithoutKey(ps, k), k) == 0
  {
    if |ps| > 0 {
      WithoutKeyGet(ps[1..], k, j);
    }
  }

  /** `set` makes `k` read `v`, leaves every other key as it was, and leaves
      exactly one pair for `k`. */
  lemma {:induction false} SetParamGet(ps: Params, k: string, v: string, j: string)
    ensures Get(SetParam(ps, k, v), j) == if j == k then Some(v) else Get(ps, j)
    ensures CountKey(SetParam(ps, k, v), k) == 1
  {
    if |ps| > 0 {
      if ps[0].0 == k {
        WithoutKeyGet(ps[1..], k, j);
      } else {
        SetParamGet(ps[1..], k, v, j);
      }
    }
  }

  /** After the copy loop every client key reads the value of its last pair. */
  lemma {:induction false} CopyParamsGet(query: Params, k: string)
    ensures Get(CopyParams(query), k) == LastValue(query, k)
  {
    if |query| > 0 {
      var n := |query| - 1;
      CopyParamsGet(query[..n], k);
      SetParamGet(CopyParams(query[..n]), query[n].0, query[n].1, k);
    }
  }

  /** The server key always wins: the forwarded query has exactly one `key`
      pair and it holds the server key, whatever `key` the client sent; every
      other client parameter arrives with the value of its last occurrence. */
  lemma ServerKeyOverrides(query: Params, serverKey: string)
    ensures Get(ForwardedQuery(query, serverKey), "key") == Some(serverKey)
    ensures CountKey(ForwardedQuery(query, serverKey), "key") == 1
    ensures forall k :: k != "key" ==> Get(ForwardedQuery(query, serverKey), k) == LastValue(query, k)
  {
    SetParamGet(CopyParams(query), "key", serverKey, "key");
    forall k | k != "key"
      ensures Get(ForwardedQuery(query, serverKey), k) == LastValue(query, k)
    {
      SetParamGet(CopyParams(query), "key", serverKey, k);
      CopyParamsGet(query, k);
    }
  }

  /** The query building of the Maps proxy as the source runs it: a fresh
      parameter list, `searchParams.forEach` copying each client pair with
      `set`, then `set('key', …)` with the server key. */
  method BuildMapsQuery(query: Params, serverKey: string) returns (ps: Params)
    ensures ps == ForwardedQuery(query, serverKey)
    ensures Get(ps, "key") == Some(serverKey) && CountKey(ps, "key") == 1
  {
    ps := [];
    var i := 0;
    while i < |query|
      invariant 0 <= i <= |query|
      invariant ps == CopyParams(query[..i])
    {
      assert query[..i + 1][..i] == query[..i];
      ps := SetParam(ps, query[i].0, query[i].1);
      i := i + 1;
    }
    assert query[..i] == query;
    ps := SetParam(ps, "key", serverKey);
    ServerKeyOverrides(query, serverKey);
  }
}
