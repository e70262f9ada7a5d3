/**
 * What the weather routes make of the weather provider's reply: the reading
 * they get when the reply is delivered (answered with an OK status, a JSON
 * body, and a condition they can lowercase), and the forecast fields the
 * three OpenWeatherMap workers share.
 */
module Forecast {
  import opened Js
  import opened Rain
  import opened Worker

  /** The WeatherAPI.com reading of a reply, or what was thrown or refused on
      the way to it. */
  function WeatherApiDelivered(reply: HttpReply): (r: Read<WeatherApiReading>)
    ensures r.Got? ==> reply.Answered? && Ok(reply.status) && reply.body.Got?
  {
    match reply
    case NetworkFailure(m) => Threw(m)
    case Answered(status, _, body) =>
      if !Ok(status) then Threw("HTTP " + IntToString(status))
      else match body
        case Threw(m) => Threw(m)
        case Got(data) => ReadWeatherApi(data)
  }

  /** The OpenWeatherMap reading of a reply, likewise. */
  function OwmDelivered(reply: HttpReply): (r: Read<OwmReading>)
    ensures r.Got? ==> reply.Answered? && Ok(reply.status) && reply.body.Got?
  {
    match reply
    case NetworkFailure(m) => Threw(m)
    case Answered(status, _, body) =>
      if !Ok(status) then Threw("HTTP " + IntToString(status))
      else match body
        case Threw(m) => Threw(m)
        case Got(data) => ReadOwm(data)
  }

  /** The forecast fields of an OpenWeatherMap reading: `main` or 'Unknown',
      the description or '', `main.temp` or null, the station name or the
      `${lat},${lng}` label, and the verdict of the exact-match classifier. */
  function OwmForecast(r: OwmReading, place: string): (d: map<string, Json>)
    ensures "success" in d && d["success"] == JBool(true)
    ensures "isRaining" in d && d["isRaining"] == JBool(OwmRaining(r.weatherMain))
  {
    map[
      "success" := JBool(true),
      "isRaining" := JBool(OwmRaining(r.weatherMain)),
      "weather" := Or(r.main, JStr("Unknown")),
      "description" := Or(r.description, JStr("")),
      "temperature" := Or(r.temp, JNull),
      "location" := Or(r.name, JStr(place))
    ]
  }
}
