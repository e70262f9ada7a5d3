/**
 * The three OpenWeatherMap workers differ in what they report on failure,
 * but not in what they ask the provider, the status they answer with, or
 * whether they say it rains.
 */
module Agreement {
  import opened Js
  import opened Worker
  import WithFallback
  import DebugWeather
  import BackendTest

  /** For any weather request and any provider reply, backend-with-fallback.js,
      debug-weather.js and backend-test.js make the same upstream call,
      answer with the same status and give the same `isRaining` verdict. */
  lemma OwmWorkersAgree(req: Request, env: Env, up: Upstream, now: string)
    requires req.verb == "GET" && StartsWith(req.pathname, "/weather/")
    ensures var a, b, c := WithFallback.Handle(req, env, up), DebugWeather.Handle(req, env, up, now),
                           BackendTest.Handle(req, env, up, now);
      && a.calls == b.calls == c.calls
      && a.response.status == b.response.status == c.response.status
      && Field(a.response, "isRaining") == Field(b.response, "isRaining") == Field(c.response, "isRaining")
  {
    WithFallback.WeatherRoute(req, env, up);
    DebugWeather.WeatherRoute(req, env, up, now);
    BackendTest.WeatherRoute(req, env, up, now);
    WeatherRoutesAgree(req, env, up.weather);
  }

  /** The three weather routes agree on the call, the status and the verdict
      for any reply. */
  lemma WeatherRoutesAgree(req: Request, env: Env, reply: HttpReply)
    ensures var a, b, c := WithFallback.Weather(req, env, reply), DebugWeather.Weather(req, env, reply),
                           BackendTest.Weather(req, env, reply);
      && a.calls == b.calls == c.calls
      && a.response.status == b.response.status == c.response.status
      && Field(a.response, "isRaining") == Field(b.response, "isRaining") == Field(c.response, "isRaining")
  {
    if ValidCoordinates(PathParts(req.pathname)) {
      WithFallback.WeatherAlwaysAnswers(req, env, reply);
      WithFallback.WeatherRainVerdict(req, env, reply);
      DebugWeather.WeatherReport(req, env, reply);
      BackendTest.WeatherReport(req, env, reply);
    }
  }
}
