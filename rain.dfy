/**
 * The two rain classifiers of the workers: the OpenWeatherMap one (an exact
 * match of the lowercased `weather[0].main`) and the WeatherAPI.com one (a
 * phrase test over the lowercased condition text, or a condition code list).
 */
module Rain {
  import opened Js

  /** The `main` values OpenWeatherMap reports for rain. */
  const OwmRainyMains: seq<string> := ["rain", "drizzle", "thunderstorm"]

  /** `['rain', 'drizzle', 'thunderstorm'].includes(weatherMain)`, where
      `weatherMain` is already lowercased (or '' when missing). */
  predicate OwmRaining(weatherMain: string) {
    weatherMain in OwmRainyMains
  }

  /** The condition phrases the WeatherAPI.com worker looks for. */
  const RainyPhrases: seq<string> := [
    "rain", "drizzle", "shower", "thunderstorm", "storm",
    "light rain", "moderate rain", "heavy rain", "torrential rain",
    "light drizzle", "heavy drizzle", "patchy rain",
    "thundery outbreaks", "blizzard"
  ]

  /** The WeatherAPI.com condition codes the worker treats as rain. */
  const RainyCodes: seq<int> := [
    1063, 1066, 1069, 1072, 1150, 1153, 1168, 1171,
    1180, 1183, 1186, 1189, 1192, 1195, 1198, 1201,
    1204, 1207, 1240, 1243, 1246, 1249, 1252, 1255,
    1258, 1261, 1264, 1273, 1276
  ]

  /** `rainyConditions.some(cond => condition.includes(cond))`. */
  predicate PhraseMatch(condition: string) {
    exists p :: p in RainyPhrases && Includes(condition, p)
  }

  /** `rainyConditionCodes.includes(conditionCode)`: strict equality, so only
      a JSON number can match. */
  predicate CodeMatch(conditionCode: Json) {
    conditionCode.JNum? && exists c :: c in RainyCodes && conditionCode.n == c as real
  }

  /** The WeatherAPI.com verdict, over the lowercased condition text (or '')
      and the condition code (or 0). */
  predicate WeatherApiRaining(condition: string, conditionCode: Json) {
    PhraseMatch(condition) || CodeMatch(conditionCode)
  }

  /** The phrases that the longer list reduces to: every listed phrase
      contains one of these. */
  const CorePhrases: seq<string> := ["rain", "drizzle", "shower", "storm", "thundery outbreaks", "blizzard"]

  predicate CoreMatch(condition: string) {
    exists q :: q in CorePhrases && Includes(condition, q)
  }

  lemma ContainsCore(p: string)
    requires p in RainyPhrases
    ensures exists q :: q in CorePhrases && Includes(p, q)
  {
    var head, q: string;
    if p == "thunderstorm" {
      head, q := "thunder", "storm";
    } else if p == "light rain" {
      head, q := "light ", "rain";
    } else if p == "moderate rain" {
      head, q := "moderate ", "rain";
    } else if p == "heavy rain" {
      head, q := "heavy ", "rain";
    } else if p == "torrential rain" {
      head, q := "torrential ", "rain";
    } else if p == "patchy rain" {
      head, q := "patchy ", "rain";
    } else if p == "light drizzle" {
      head, q := "light ", "drizzle";
    } else if p == "heavy drizzle" {
      head, q := "heavy ", "drizzle";
    } else {
      head, q := "", p;
    }
    assert p == head + q;
    SuffixOccurs(head, q);
    assert q in CorePhrases;
  }

  /** A text contains its own tail. */
  lemma SuffixOccurs(head: string, tail: string)
    ensures OccursAt(head + tail, tail, |head|)
    ensures Includes(head + tail, tail)
  {
    var text := head + tail;
    assert text[|head|..|head| + |tail|] == tail;
    assert 0 <= |head| <= |text| - |tail| && OccursAt(text, tail, |head|);
  }

  /** The fourteen phrases of the WeatherAPI.com worker test exactly what the
      six core phrases test: the longer entries are redundant. */
  lemma PhraseListReduces(condition: string)
    ensures PhraseMatch(condition) <==> CoreMatch(condition)
  {
    if PhraseMatch(condition) {
      var p :| p in RainyPhrases && Includes(condition, p);
      ContainsCore(p);
      var q :| q in CorePhrases && Includes(p, q);
      IncludesTransitive(condition, p, q);
    }
    if CoreMatch(condition) {
      var q :| q in CorePhrases && Includes(condition, q);
      assert q in RainyPhrases;
    }
  }

  /** Missing condition text and code (defaulted to '' and 0) never mean rain. */
  lemma NothingReportedIsDry()
    ensures !WeatherApiRaining("", JNum(0.0))
  {
    forall p | p in RainyPhrases ensures !Includes("", p) {
      assert |p| > 0;
    }
  }

  /** Whatever OpenWeatherMap calls rain, the WeatherAPI.com phrase test calls
      rain too, whatever the condition code. */
  lemma OwmRainIsWeatherApiRain(weatherMain: string, conditionCode: Json)
    requires OwmRaining(weatherMain)
    ensures WeatherApiRaining(weatherMain, conditionCode)
  {
    assert weatherMain in RainyPhrases;
    assert OccursAt(weatherMain, weatherMain, 0);
  }

  // ------------------------------------------------- reading the replies

  /** What a worker reads from an OpenWeatherMap reply: the lowercased
      `weather[0].main` (or ''), and the raw `weather[0]`, `weather[0].main`,
      `weather[0].description`, `main.temp` and `name`. */
  datatype OwmReading = OwmReading(
    weatherMain: string, first: Value, main: Value, description: Value, temp: Value, name: Value)

  /** The reads of the OpenWeatherMap workers on the parsed reply:
      `weatherData.weather?.[0]?.main?.toLowerCase() || ''` and the fields of
      the success body. `weatherData.weather` throws on a null reply, and
      `toLowerCase` throws on a `main` that is neither a string nor null. */
  function ReadOwm(data: Json): (r: Read<OwmReading>)
    ensures r.Got? ==> OwmRaining(r.value.weatherMain) ==> r.value.main.Some? && r.value.main.value.JStr?
    ensures r.Threw? <==> data == JNull || (var m := OptMember(OptMember(Property(data, "weather"), "0"), "main");
                                          m.Some? && !m.value.JStr? && m.value != JNull)
  {
    if data == JNull then Threw(TypeErrorMessage)
    else
      var first := OptMember(Property(data, "weather"), "0");
      var main := OptMember(first, "main");
      match OptLowerCase(main)
      case Threw(e) => Threw(e)
      case Got(lower) =>
        Got(OwmReading(OrEmpty(lower), first, main, OptMember(first, "description"),
                       OptMember(Property(data, "main"), "temp"), Property(data, "name")))
  }

  /** What the WeatherAPI.com worker reads: the lowercased
      `current.condition.text` (or ''), `current.condition.code` (or 0), and
      the raw text, `current.temp_c` and `location.name`. */
  datatype WeatherApiReading = WeatherApiReading(
    condition: string, conditionCode: Json, text: Value, tempC: Value, locationName: Value)

  function ReadWeatherApi(data: Json): (r: Read<WeatherApiReading>)
    ensures r.Threw? <==> data == JNull || (var t := OptMember(OptMember(Property(data, "current"), "condition"), "text");
                                          t.Some? && !t.value.JStr? && t.value != JNull)
    ensures r.Got? && r.value.text == None ==> r.value.condition == ""
    ensures r.Got? && r.value.text.Some? && r.value.text.value.JStr? ==> r.value.condition == Lower(r.value.text.value.s)
    ensures r.Got? && !Truthy(OptMember(OptMember(Property(data, "current"), "condition"), "code")) ==>
      r.value.conditionCode == JNum(0.0)
  {
    if data == JNull then Threw(TypeErrorMessage)
    else
      var current := Property(data, "current");
      var condition := OptMember(current, "condition");
      var text := OptMember(condition, "text");
      match OptLowerCase(text)
      case Threw(e) => Threw(e)
      case Got(lower) =>
        Got(WeatherApiReading(OrEmpty(lower), Or(OptMember(condition, "code"), JNum(0.0)), text,
                              OptMember(current, "temp_c"), OptMember(Property(data, "location"), "name")))
  }
}
