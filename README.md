# delivery-track in Dafny

A model of the delivery-tracking page and its Cloudflare Workers, with
proofs about it.

On the page (app.js) a customer enters a phone number and sees their orders
with a status badge. Orders that are being delivered also get a live map of
the driver, refreshed every 30 seconds.

Four workers sit between the page and the outside services:

- **backend-weatherapi-fixed.js** proxies three things: order lookups and
  driver locations to the delivery backend, and Google Maps. It answers
  weather requests from WeatherAPI.com, and every failure falls back to a
  dry answer.
- **backend-with-fallback.js** does the same with OpenWeatherMap, and tags
  each fallback with its reason.
- **debug-weather.js** reports the environment and explains weather
  failures in detail.
- **backend-test.js** is a cut-down variant.

How the model is built:

- **Workers.** Each worker is a function from a request, its environment
  bindings and the replies the upstream services would give, to the
  upstream calls it makes and its response. A route that does not call
  upstream has an empty call list.
- **Page helpers.** The badge lookup, the eligibility test, the phone check,
  the submit handler and the time-ago buckets are functions over JSON
  values.
- **Tracking state.** The page's live-tracking Maps are a class whose
  methods change them in place.

Files:

- `js.dfy`: the JavaScript semantics the code relies on. It covers JSON values, `undefined`, truthiness, `||`, property reads that throw, and the string methods `trim`, `split`, `startsWith`, `includes`, `toLowerCase` and `replace`.
- `worker.dfy`: the request/response types shared by the workers, path splitting, the coordinate checks, and the Maps query-copy loop.
- `proxy_routes.dfy`: the order, driver-location and Google Maps routes, identical in the two proxy workers.
- `rain.dfy`: the two rain classifiers and the reads of the provider replies.
- `forecast.dfy`: a provider reply turned into a reading or an error, and the forecast body of the OpenWeatherMap workers.
- `weatherapi_fixed.dfy`, `with_fallback.dfy`, `debug_weather.dfy`, `backend_test.dfy`: one module per worker.
- `agreement.dfy`: the three OpenWeatherMap workers compared.
- `client.dfy`: the pure decisions of app.js.
- `tracking.dfy`: the live-tracking state of app.js.

## Model

| member | source | states |
|---|---|---|
| Js.Or | app.js:62-71 | `v \|\| fallback` is `v` when `v` is truthy and the fallback otherwise |
| Js.OptLowerCase | backend-with-fallback.js:203 | `v?.toLowerCase()` gives undefined on null or undefined and the lowered text on a string; on any other value it throws |
| Js.TrimBlank | app.js:22-31 | the trimmed phone is empty exactly when the input is all whitespace; otherwise it starts and ends with a non-space |
| Js.Split | backend-weatherapi-fixed.js:129 | `split('/')` gives one more part than there are slashes, and no part contains a slash |
| Js.JoinSplit | backend-weatherapi-fixed.js:129 | joining the parts of a split gives back the path |
| Js.ReplaceFirstAt | debug-weather.js:105 | `replace` with a string pattern rewrites the first occurrence only, leaving the text around it unchanged |
| Js.ParsesBeforeComma | app.js:410-411 | `parseFloat` of a text followed by a comma gives a number exactly when it does for the text alone, so an array coordinate parses by its first element |
| Worker.CoordinateProblem | backend-weatherapi-fixed.js:129-151 | fewer than four path parts is "缺少经纬度参数"; an unparsable lat or lng is "无效的经纬度参数"; no problem exactly when the coordinates are valid |
| Worker.UnsetBaseNotFetchable | backend-weatherapi-fixed.js:57-59 | a URL built from an unset binding ("undefined/…") or an empty one ("/…") is not one `fetch` sends |
| Worker.WithoutKeyGet | backend-weatherapi-fixed.js:343-347 | after removing `k`, `k` reads nothing and the other keys read as before |
| Worker.SetParamGet | backend-weatherapi-fixed.js:344 | `searchParams.set(k, v)` makes `k` read `v` exactly once and leaves the other keys alone |
| Worker.CopyParamsGet | backend-weatherapi-fixed.js:343-345 | after the copy loop each client key reads the value of its last pair |
| Worker.ServerKeyOverrides | backend-weatherapi-fixed.js:343-347 | the forwarded query has exactly one `key`, the server's; every other key keeps the client's last value |
| Worker.BuildMapsQuery | backend-weatherapi-fixed.js:343-347 | the copy loop followed by `set('key', …)` builds exactly the forwarded query, with the server key once |
| ProxyRoutes.TrackOrder | backend-weatherapi-fixed.js:43-82 | a missing or falsy phone gives 400 without an upstream call; the backend is called with the phone exactly when the phone is there and the backend URL is one `fetch` sends; its body is forwarded with 200, and any exception, the rejected fetch included, gives 500 |
| ProxyRoutes.DriverLocation | backend-weatherapi-fixed.js:85-124 | an empty route id gives 400 without an upstream call; the backend is called with `Authorization: ApiKey …` exactly when there is an id and the URL is one `fetch` sends, otherwise 500 without a call; the body is forwarded, and an exception gives 500 |
| ProxyRoutes.MissingBackendRefused | backend-weatherapi-fixed.js:57-109 | with BACKEND_URL unset or empty neither backend route calls out, and a request that passes validation gets the route's 500 |
| ProxyRoutes.RouteIdAfterPrefix | backend-weatherapi-fixed.js:85-98 | under /driver-location/ the route id is the text up to the next slash; it is empty exactly when a slash or nothing follows the prefix |
| ProxyRoutes.MapsJsApiUrl | backend-weatherapi-fixed.js:287-316 | no upstream call; 200 with the Maps JavaScript URL carrying the server key when it is set, else 500 |
| ProxyRoutes.MapsProxy | backend-weatherapi-fixed.js:318-376 | a service off the allow-list gives 400 before the key check; a missing key gives 500; otherwise one call with the copied query; a non-OK upstream status is passed through |
| ProxyRoutes.MapsProxySendsServerKey | backend-with-fallback.js:304-308 | whatever the client sends, the proxied query carries exactly one `key`, the server's |
| Rain.ContainsCore | backend-weatherapi-fixed.js:226-231 | every listed rain phrase contains one of rain, drizzle, shower, storm, thundery outbreaks or blizzard |
| Rain.PhraseListReduces | backend-weatherapi-fixed.js:226-241 | the fourteen-phrase test matches exactly the conditions that contain one of those six phrases |
| Rain.NothingReportedIsDry | backend-weatherapi-fixed.js:222-242 | missing condition text and code, defaulted to '' and 0, are never rain |
| Rain.OwmRainIsWeatherApiRain | backend-with-fallback.js:203-204 | whatever the OpenWeatherMap classifier calls rain, the WeatherAPI.com classifier does too |
| Rain.ReadOwm | backend-with-fallback.js:203-204 | the reading throws exactly on a null reply or a `main` that is neither a string nor null; rain implies `main` was a string |
| Rain.ReadWeatherApi | backend-weatherapi-fixed.js:222-223 | the reading throws exactly on a null reply or a non-string condition text; the condition is the lowered text, missing text reads as '' and a missing or falsy code as 0 |
| Forecast.WeatherApiDelivered | backend-weatherapi-fixed.js:176-223 | a reading is delivered only from an answered, OK reply whose body parsed |
| Forecast.OwmDelivered | backend-with-fallback.js:153-204 | a reading is delivered only from an answered, OK reply whose body parsed |
| Forecast.OwmForecast | backend-with-fallback.js:206-220 | the forecast says success, and says rain exactly when the classifier does |
| WeatherApiFixed.Weather | backend-weatherapi-fixed.js:127-284 | bad coordinates give the 400 and nothing else; the WeatherAPI.com URL is called exactly when the coordinates are valid and a key is set |
| WeatherApiFixed.Degraded | backend-weatherapi-fixed.js:154-283 | every fallback answers 200 with CORS, `success: true`, `isRaining: false` and max-age 300 |
| WeatherApiFixed.WeatherAlwaysAnswers | backend-weatherapi-fixed.js:154-283 | past validation, every path (no key, network error, non-OK, exception, success) answers 200 with `success: true` |
| WeatherApiFixed.WeatherCacheAge | backend-weatherapi-fixed.js:154-283 | max-age is 1800 exactly when a reading was delivered, else 300 |
| WeatherApiFixed.WeatherRainVerdict | backend-weatherapi-fixed.js:219-263 | `isRaining` holds exactly when a reading was delivered and its condition is rainy; every failure is dry |
| WeatherApiFixed.Handle | backend-weatherapi-fixed.js:11-385 | OPTIONS is the preflight on any path; `/` is the status document for any method; CORS on every answer; at most one upstream call; the answer is the uncalled 404 endpoint list exactly when no route takes the request |
| WeatherApiFixed.WeatherRoute | backend-weatherapi-fixed.js:127 | every GET under /weather/ reaches the weather route |
| WeatherApiFixed.MapsRoutes | backend-weatherapi-fixed.js:287-318 | /maps/js-api-url is matched before the generic Maps proxy, which takes every other GET under /maps/ |
| WeatherApiFixed.EmptyRouteIdRefused | backend-weatherapi-fixed.js:85-98 | /driver-location/ with an empty id is refused with 400 before the backend is called |
| WithFallback.Weather | backend-with-fallback.js:104-244 | bad coordinates give the 400 and nothing else; the OpenWeatherMap URL is called exactly when the coordinates are valid and a key is set |
| WithFallback.Degraded | backend-with-fallback.js:131-243 | every fallback answers 200 with CORS, `success: true`, `isRaining: false`, max-age 300 and its `fallback` tag |
| WithFallback.WeatherAlwaysAnswers | backend-with-fallback.js:131-243 | past validation every path answers 200 with `success: true` |
| WithFallback.WeatherCacheAge | backend-with-fallback.js:131-243 | max-age is 1800 and `fallback` is "none" exactly when a reading was delivered, else max-age 300 |
| WithFallback.WeatherRainVerdict | backend-with-fallback.js:203-220 | `isRaining` holds exactly when a reading was delivered and its `main` is rain, drizzle or thunderstorm |
| WithFallback.FallbackTags | backend-with-fallback.js:131-243 | the `fallback` tag is "no_api_key", "network_error", "api_error" (with the upstream status in `debug`) or "system_error" by the failure, and "none" for a delivered reading |
| WithFallback.Handle | backend-with-fallback.js:11-339 | OPTIONS is the preflight; every answer has CORS except the bare 404; at most one upstream call; none unless GET or POST; the answer is the uncalled bare 404 exactly when no route takes the request |
| WithFallback.MapsRoutes | backend-with-fallback.js:247-279 | /maps/js-api-url is matched before the generic Maps proxy, which takes every other GET under /maps/ |
| WithFallback.RootNotServed | backend-with-fallback.js:339 | `/` gets the plain-text 404 without CORS |
| WithFallback.WeatherRoute | backend-with-fallback.js:104 | every GET under /weather/ reaches the weather route |
| DebugWeather.Presence | debug-weather.js:22-26 | a binding reports CONFIGURED exactly when it is set and non-empty, else MISSING |
| DebugWeather.EnvironmentKeys | debug-weather.js:78 | the listed keys include WEATHER_API_KEY exactly when that binding exists |
| DebugWeather.MaskLeavesKeyVisible | debug-weather.js:105 | with the key "api" the mask lands in the host name and the key stays in `appid=` |
| DebugWeather.MaskedUrlAgrees | debug-weather.js:105 | when the key text does not occur earlier in the URL, `replace` gives the URL with `appid=HIDDEN` |
| DebugWeather.ErrorDetails | debug-weather.js:116-122 | a body that fails to parse or is null gives "HTTP status statusText"; a truthy `message` is reported as is |
| DebugWeather.Weather | debug-weather.js:34-181 | bad coordinates give 400 with the matching error and no `isRaining`; otherwise 200; the OpenWeatherMap URL is called exactly when the coordinates are valid and a key is set |
| DebugWeather.Failed | debug-weather.js:72-180 | every weather failure answers 200 with CORS, `success: false`, `isRaining: false` and no caching |
| DebugWeather.WeatherReport | debug-weather.js:72-181 | past validation the answer is 200; success, caching and `isRaining` hold only for a delivered reading |
| DebugWeather.NetworkFailureReport | debug-weather.js:90-113 | a network failure reports the URL after `replace`, which masks the key's first occurrence: that is `appid=HIDDEN` when the key does not occur earlier, and with key "api" the host is masked and `appid=api` stays |
| DebugWeather.NotFound | debug-weather.js:183-190 | the 404 echoes the path and method |
| DebugWeather.Handle | debug-weather.js:10-190 | OPTIONS is the preflight; `/` is answered without an upstream call; CORS on every answer; only the weather route calls upstream; a request no route takes, and only such a request, gets the 404 echoing path and method |
| DebugWeather.WeatherRoute | debug-weather.js:34 | every GET under /weather/ reaches the weather route |
| DebugWeather.ReportShowsKeyLength | debug-weather.js:27 | the report gives the key's length when it is set, else 0 |
| BackendTest.TrackOrder | backend-test.js:36-86 | the phone check (400) comes before the BACKEND_URL check (500), and both before any call; a BACKEND_URL `fetch` does not send to is a caught TypeError; an exception gives 500 with `details` |
| BackendTest.Weather | backend-test.js:89-176 | bad coordinates give the 400; the OpenWeatherMap URL is called exactly when the coordinates are valid and a key is set |
| BackendTest.Failed | backend-test.js:116-175 | every weather failure answers 200 with CORS, `success: false`, `isRaining: false` and no caching |
| BackendTest.WeatherReport | backend-test.js:116-175 | past validation the answer is 200; success, caching and `isRaining` hold only for a delivered reading; a non-OK upstream reports its status |
| BackendTest.NotFound | backend-test.js:178-185 | the 404 echoes the path and method, with CORS |
| BackendTest.Handle | backend-test.js:11-185 | OPTIONS is the preflight; `/` is answered for any method; only the order and weather routes call upstream; a request no route takes, and only such a request, gets the 404 echoing path and method |
| BackendTest.WeatherRoute | backend-test.js:89 | every GET under /weather/ reaches the weather route |
| BackendTest.DriverLocationNotServed | backend-test.js:178-185 | a GET under /driver-location/ gets the 404 without an upstream call |
| Agreement.OwmWorkersAgree | backend-with-fallback.js:104-244 | for any weather request, the three OpenWeatherMap workers make the same call, answer the same status and give the same `isRaining` |
| Agreement.WeatherRoutesAgree | backend-test.js:89-176 | for any path and reply, the three OpenWeatherMap weather routes make the same call, answer the same status and give the same verdict |
| Client.StatusBadgeAsWritten | app.js:106 | the lookup as written, on the status converted to a key as `String` does (so an array joins its elements): it throws exactly when the conversion throws (an object with its own `toString`, or an array holding one); otherwise table entry, inherited member (all fields undefined), or fallback |
| Client.ArrayStatusFindsEntry | app.js:106 | the one-element array `["正在配送"]` finds the table entry of "正在配送" |
| Client.InheritedNameLosesText | app.js:106 | the status "toString" renders with undefined text instead of itself |
| Client.StatusBadge | app.js:9-17 | the key conversion still throws exactly when it does on the page; otherwise a known status gets its table entry and an unknown one the fallback; a string status is its own badge text, and any other shows its key text or itself |
| Client.StatusBadgeShowsStatus | app.js:106 | a table badge shows the status's key text, a fallback the status itself; the corrected lookup agrees with the page on every status that is not an inherited name |
| Client.EligibleHasTableBadge | app.js:212-216 | an order chosen for live tracking is delivering or assigned, and has a truck or calendar badge from the table |
| Client.PhonePatternMeaning | app.js:331 | the regular expression matches exactly the non-empty texts made only of digits, '-', '+', whitespace and parentheses |
| Client.PhoneValidity | app.js:329-337 | the field is valid exactly when it is empty or matches the pattern; otherwise the message is "请输入有效的手机号码" |
| Client.RemainingWait | app.js:54-60 | the wait is never negative, is zero exactly after two seconds, and brings the total to at least two seconds |
| Client.Submit | app.js:19-90 | a blank phone alerts without a request; any sent request waits out two seconds; a reply with `success` and orders cleans up and shows exactly `data.orders` (the network error when they cannot be rendered); any other reply shows `message` or "未找到相关订单" without cleanup; a failed request or a null reply shows the network error |
| Client.SubmitTiming | app.js:28-82 | no request is sent exactly when the input is all whitespace; on every path that sends, elapsed time plus wait is at least two seconds |
| Client.TimeAgo | app.js:522-541 | "未知" exactly for a falsy timestamp; an invalid date gives the full date; a full date is always of the timestamp itself |
| Client.TimeAgoBuckets | app.js:522-541 | under a minute (including the future) is "just now"; then whole minutes below an hour; then whole hours below a day; then the date |
| Tracking.TextCoordinatesNotShown | app.js:340-360 | truthy coordinates that are not numbers register nothing when the container is on the page, and still register the timer when it is not |
| Tracking.UnconvertibleTimeNotShown | app.js:417-418 | numeric coordinates with a `last_location_update` object that has its own `toString`: nothing is registered with the container on the page, and the timer still is without it |
| Tracking.TrackedMeaning | app.js:212-216 | the ids tracked after a display are exactly the eligible orders whose location reply had truthy coordinates that `parseFloat` turns into numbers and a popup whose fields convert to text |
| Tracking.LastTrackedStep | app.js:212-216 | each further tracked order becomes the last one for its id, and any other order leaves every id's last reply as it was |
| Tracking.MapData.UpdateDriverMarker | app.js:454-472 | the stored driver data becomes the new data when both coordinates parse and the popup fields convert; otherwise `setLatLng` or `setPopupContent` throws and the entry is unchanged |
| Tracking.TrackingState.DisplayDriverMap | app.js:382-452 | without a container nothing changes; with it, a coordinate that does not parse or a popup field that does not convert throws before anything is stored; otherwise a fresh map is stored for the order and no other entry changes |
| Tracking.TrackingState.LoadDriverLocation | app.js:340-362 | without both coordinates, or with the container present and a coordinate that does not parse or a popup field that does not convert (the `catch`), nothing changes; otherwise one fresh timer is registered for the order, and a map is stored when its container exists |
| Tracking.TrackingState.UpdateDriverLocation | app.js:364-380 | with coordinates that parse, popup fields that convert and a stored map, that map's driver data is replaced; otherwise no stored map changes |
| Tracking.TrackingState.CleanupMapsAndIntervals | app.js:544-558 | every stored map is removed, every stored timer cleared, and both Maps are empty |
| Tracking.TrackingState.DisplayOrders | app.js:212-216 | the orders that gain a map and a timer are exactly the tracked ones; each holds a map made during the call showing its last tracked reply and a newly scheduled timer; every other entry keeps its map and timer |

## Left out

- HTML rendering, the DOM and Leaflet: templates, `innerHTML`, markers, and `showLocationUnavailable` and `updateLocationTime`, which only write text into the page. The one way the live-map templates throw, a field that cannot be converted to text, is modelled by Tracking.Drawable.
- Nominatim geocoding (`geocodeDeliveryAddress`), `formatDateTime`, `formatDate` and `formatTimeRange`: locale formatting and a network lookup that decide nothing the model tracks, apart from `formatDateTime` handing back a value it cannot convert (Tracking.PopupShows).
- `showFormAgain` and the phone prefill on page load: they only show, hide and fill elements.
- Timers and async interleaving. A timer is a handle, and each request is modelled as settling in one step with its reply, so a reply that arrives after a later search has cleaned up is not modelled.
- Network, clock and parsing results are inputs: `fetch` replies, `new Date()` and `Date.now()`.
- `parseFloat` is modelled only by its NaN test. The location label and provider URLs use the raw path text; in the source they use the parsed number.
- `toLowerCase` lowers only the Latin capitals A-Z.
- String lengths are counted in code points, not UTF-16 units.
- The message of an engine TypeError is one fixed text.
- The debug fields `parsedLat`, `parsedLng` and `exceptionStack` of debug-weather.js.
- The catch of the js-api-url route: nothing in its body can throw.
- `Object.keys(env)` order: the model lists the bindings in a fixed order.
- Js.Property: a JSON object's members are its own keys only. No inherited member is read from parsed JSON; the one lookup where inheritance matters is listed under Findings. An own `toString` member matters only when the object is converted to text (Js.Stringable).
- Client.Submit: `data.orders.length > 0` is decided for a number or boolean `length`; any other `length` (a string compared by coercion) is taken as not positive.
- Client.Submit: rendering throws only for an `orders` that is not an array or holds null; an order field that cannot be converted to text (an object with its own `toString`) and throws inside the date formatters are not modelled.
- Client.TimeAgoBuckets: a full date is reported as the timestamp, not its locale text.
- ProxyRoutes.TrackOrder, ProxyRoutes.DriverLocation, BackendTest.TrackOrder: a backend URL counts as one `fetch` sends when it starts with "http:" or "https:" in any case; a URL with that scheme but a malformed host or leading spaces is not told apart.
- Client.StatusBadgeAsWritten: a status whose key text would contain a number is not formatted; it names no table entry and no inherited member, since those names have no digits.
- Tracking.TrackingState.DisplayOrders: each eligible order's container is taken to be on the page (the page has just rendered it); duplicate order ids and Leaflet errors other than a coordinate that is not a number or a popup field that cannot be converted are not modelled; the loop is modelled after the list has rendered.
- Tracking.TrackingState.DisplayDriverMap: when `L.marker` throws, the Leaflet map already created in the container stays on the page unstored; the model draws no handle for it.
- Tracking.TrackingState: order ids are compared as JSON values; a JavaScript `Map` compares object keys by identity.

## Findings

| source | as written | input that shows it | evidently intended | confidence | as-written member | corrected member |
|---|---|---|---|---|---|---|
| app.js:106 | the status is looked up through the prototype chain, so an inherited member such as `toString` counts as found | an order whose `display_status` is "toString" | an unknown status gets the fallback badge that shows the status | low (needs such a status from the backend); not executed | Client.StatusBadgeAsWritten, Client.InheritedNameLosesText | Client.StatusBadge, Client.StatusBadgeShowsStatus |
| debug-weather.js:105 | `replace` masks only the first occurrence of the key text in the URL | WEATHER_API_KEY "api": the host becomes "HIDDEN.openweathermap.org" and `appid=api` stays visible | the reported URL never shows the key | low (needs a key whose text occurs earlier in the URL); not executed | DebugWeather.MaskedUrlAsWritten, DebugWeather.MaskLeavesKeyVisible | DebugWeather.MaskedUrl, DebugWeather.MaskedUrlAgrees |
