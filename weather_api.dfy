/** The OpenWeatherMap record formatter and the convenience wrapper around it
    (`WeatherAPI.format_weather_data` and `get_weather`). */
module WeatherApi {
  import opened Outcomes
  import opened Text

  /** A decoded JSON value as Python holds it. A number carries the text `str()` gives
      it and whether it decoded to an `int` or a `float`; its value is never used. */
  datatype Json =
    | Str(s: string)
    | Number(shown: string, integral: bool)
    | Bool(b: bool)
    | Null
    | Obj(fields: map<string, Json>)
    | Arr(items: seq<Json>)

  /** Python's name for the value's type, as exception messages spell it. */
  function TypeName(v: Json): string {
    match v
    case Str(_) => "str"
    case Number(_, integral) => if integral then "int" else "float"
    case Bool(_) => "bool"
    case Null => "NoneType"
    case Obj(_) => "dict"
    case Arr(_) => "list"
  }

  /** What an f-string slot shows for the value: `str(v)` for scalars, a placeholder
      for containers. */
  function Show(v: Json): string {
    match v
    case Str(s) => s
    case Number(shown, _) => shown
    case Bool(b) => if b then "True" else "False"
    case Null => "None"
    case Obj(_) => "{...}"
    case Arr(_) => "[...]"
  }

  /** `v.get(key, default)`: only a dict has `get`. */
  function Get(v: Json, key: string, default: Json): Outcome<Json> {
    if v.Obj? then Ok(if key in v.fields then v.fields[key] else default)
    else Err("'" + TypeName(v) + "' object has no attribute 'get'")
  }

  /** `v[0]`. A JSON object's keys are strings, so `0` is never one of them (a
      `KeyError` whose text is `0`); a string gives its first character. */
  function First(v: Json): Outcome<Json> {
    match v
    case Arr(items) => if items == [] then Err("list index out of range") else Ok(items[0])
    case Obj(_) => Err("0")
    case Str(s) => if s == [] then Err("string index out of range") else Ok(Str([s[0]]))
    case _ => Err("'" + TypeName(v) + "' object is not subscriptable")
  }

  /** The seven values the formatter shows, already rendered. */
  datatype Report = Report(
    city: string, country: string, temp: string, feelsLike: string,
    description: string, humidity: string, windSpeed: string)

  /** The lookups of `format_weather_data`, in the order the source performs them; the
      first one that raises decides the error. */
  function Lookup(data: Json): Outcome<Report> {
    var city :- Get(data, "name", Str("Unknown"));
    var sys :- Get(data, "sys", Obj(map[]));
    var country :- Get(sys, "country", Str(""));
    var main :- Get(data, "main", Obj(map[]));
    var temp :- Get(main, "temp", Str("N/A"));
    var feelsLike :- Get(main, "feels_like", Str("N/A"));
    var conditions :- Get(data, "weather", Arr([Obj(map[])]));
    var first :- First(conditions);
    var description :- Get(first, "description", Str("N/A"));
    var humidity :- Get(main, "humidity", Str("N/A"));
    var wind :- Get(data, "wind", Obj(map[]));
    var windSpeed :- Get(wind, "speed", Str("N/A"));
    Ok(Report(Show(city), Show(country), Show(temp), Show(feelsLike),
              Show(description), Show(humidity), Show(windSpeed)))
  }

  const Degrees := "\U{B0}C"

  /** The fixed text in front of each piece of the block. */
  const Labels: seq<string> :=
    ["\n", "\n- Temperature: ", "\n- Feels like: ", "\n- Conditions: ", "\n- Humidity: ", "\n- Wind Speed: "]

  /** The pieces of the block that carry the looked-up values. */
  function Pieces(r: Report): (ps: seq<string>)
    ensures |ps| == |Labels|
  {
    [ "Current Weather in " + r.city + ", " + r.country + ":",
      r.temp + Degrees, r.feelsLike + Degrees, r.description,
      r.humidity + "%", r.windSpeed + " m/s" ]
  }

  /** `labels[0] + ps[0] + labels[1] + ps[1] + ...` */
  function Interleave(labels: seq<string>, ps: seq<string>): string
    requires |labels| == |ps|
    decreases |ps|
  {
    if ps == [] then "" else labels[0] + ps[0] + Interleave(labels[1..], ps[1..])
  }

  /** The text block `format_weather_data` returns: each label followed by its piece,
      then a final line break. */
  function Render(r: Report): string {
    Interleave(Labels, Pieces(r)) + "\n"
  }

  /** `WeatherAPI.format_weather_data`: the rendered block, or the exception it raises.
      It succeeds exactly on the accepted record shapes, and then shows each looked-up
      value or its default in its slot; a failure is the first lookup's exception. */
  function FormatWeatherData(data: Json): (r: Outcome<string>)
    ensures r.Ok? <==> Formattable(data)
    ensures r.Ok? ==> Formattable(data) && r.value == Render(Slots(data.fields))
    ensures r.Err? ==> r.msg == Lookup(data).msg
    ensures !data.Obj? ==> r == Err("'" + TypeName(data) + "' object has no attribute 'get'")
  {
    FormatSucceedsIff(data);
    var report :- Lookup(data);
    SlotsAndDefaults(data);
    Ok(Render(report))
  }

  const FetchErrorPrefix := "Error fetching weather data: "

  /** `get_weather`: `fetched` is what the HTTP call returned (the decoded body) or the
      text of the exception it raised. Never raises: every failure becomes a message. */
  function GetWeather(fetched: Outcome<Json>): (r: string)
    ensures fetched.Err? ==> r == FetchErrorPrefix + fetched.msg
    ensures fetched.Ok? && FormatWeatherData(fetched.value).Err? ==>
      r == FetchErrorPrefix + FormatWeatherData(fetched.value).msg
    ensures fetched.Ok? && FormatWeatherData(fetched.value).Ok? ==>
      r == FormatWeatherData(fetched.value).value
  {
    if fetched.Err? then FetchErrorPrefix + fetched.msg
    else
      match FormatWeatherData(fetched.value)
      case Ok(text) => text
      case Err(msg) => FetchErrorPrefix + msg
  }

  // ---------------------------------------------------------------------------
  // Which records can be formatted

  /** A key that is missing or holds a dict, so `.get(key, {}).get(...)` does not raise. */
  predicate DictOrMissing(m: map<string, Json>, key: string) {
    key !in m || m[key].Obj?
  }

  /** `weather` is missing, or a non-empty list whose first element is a dict. */
  predicate ConditionsUsable(m: map<string, Json>) {
    "weather" !in m || (m["weather"].Arr? && m["weather"].items != [] && m["weather"].items[0].Obj?)
  }

  /** The record shapes the formatter accepts. */
  predicate Formattable(data: Json) {
    && data.Obj?
    && DictOrMissing(data.fields, "sys")
    && DictOrMissing(data.fields, "main")
    && ConditionsUsable(data.fields)
    && DictOrMissing(data.fields, "wind")
  }

  /** The report an accepted record shows: each value `str()`-rendered, or the default
      `format_weather_data` uses when its key is missing. */
  function Slots(m: map<string, Json>): Report
    requires Formattable(Obj(m))
  {
    Report(
      if "name" in m then Show(m["name"]) else "Unknown",
      if "sys" in m && "country" in m["sys"].fields then Show(m["sys"].fields["country"]) else "",
      if "main" in m && "temp" in m["main"].fields then Show(m["main"].fields["temp"]) else "N/A",
      if "main" in m && "feels_like" in m["main"].fields then Show(m["main"].fields["feels_like"]) else "N/A",
      if "weather" in m && "description" in m["weather"].items[0].fields
      then Show(m["weather"].items[0].fields["description"]) else "N/A",
      if "main" in m && "humidity" in m["main"].fields then Show(m["main"].fields["humidity"]) else "N/A",
      if "wind" in m && "speed" in m["wind"].fields then Show(m["wind"].fields["speed"]) else "N/A")
  }

  /** The lookups succeed exactly on the accepted shapes: any other value under one of
      the five keys, or a record that is not a dict, raises. */
  lemma FormatSucceedsIff(data: Json)
    ensures Lookup(data).Ok? <==> Formattable(data)
  {
    if !data.Obj? {
      assert Get(data, "name", Str("Unknown")).Err?;
    } else if !DictOrMissing(data.fields, "sys") {
      assert Get(Get(data, "sys", Obj(map[])).value, "country", Str("")).Err?;
    } else if !DictOrMissing(data.fields, "main") {
      assert Get(Get(data, "main", Obj(map[])).value, "temp", Str("N/A")).Err?;
    } else if !ConditionsUsable(data.fields) {
      var w := data.fields["weather"];
      if w.Str? && w.s != [] {
        assert First(w) == Ok(Str([w.s[0]]));
      }
      assert First(w).Err? || Get(First(w).value, "description", Str("N/A")).Err?;
    } else if !DictOrMissing(data.fields, "wind") {
      assert Get(Get(data, "wind", Obj(map[])).value, "speed", Str("N/A")).Err?;
    }
  }

  /** An empty `weather` list raises `IndexError` once the lookups before it succeeded. */
  lemma EmptyConditionsFail(data: Json)
    requires data.Obj? && "weather" in data.fields && data.fields["weather"] == Arr([])
    ensures FormatWeatherData(data).Err?
    ensures DictOrMissing(data.fields, "sys") && DictOrMissing(data.fields, "main") ==>
      FormatWeatherData(data).msg == "list index out of range"
  {
  }

  /** Every slot shows the looked-up value, or its default when a key is missing. */
  lemma SlotsAndDefaults(data: Json)
    requires Formattable(data)
    ensures Lookup(data).Ok? && Lookup(data).value == Slots(data.fields)
  {
    FormatSucceedsIff(data);
    var m, r, e := data.fields, Lookup(data).value, Slots(data.fields);
    assert r.city == e.city && r.country == e.country;
    assert r.temp == e.temp && r.feelsLike == e.feelsLike;
    assert r.description == e.description;
    assert r.humidity == e.humidity && r.windSpeed == e.windSpeed;
  }

  /** The keys the formatter reads at the top level of the record. */
  const ReadKeys: set<string> := {"name", "sys", "main", "weather", "wind"}

  /** Only the five keys it reads matter: records that agree on them format alike,
      whatever else they hold. */
  lemma OtherKeysIgnored(m1: map<string, Json>, m2: map<string, Json>)
    requires forall k :: k in ReadKeys ==> (k in m1 <==> k in m2) && (k in m1 ==> m1[k] == m2[k])
    ensures FormatWeatherData(Obj(m1)) == FormatWeatherData(Obj(m2))
  {
    var d1, d2 := Obj(m1), Obj(m2);
    assert "name" in ReadKeys && "sys" in ReadKeys && "main" in ReadKeys;
    assert "weather" in ReadKeys && "wind" in ReadKeys;
    assert Get(d1, "name", Str("Unknown")) == Get(d2, "name", Str("Unknown"));
    assert Get(d1, "sys", Obj(map[])) == Get(d2, "sys", Obj(map[]));
    assert Get(d1, "main", Obj(map[])) == Get(d2, "main", Obj(map[]));
    assert Get(d1, "weather", Arr([Obj(map[])])) == Get(d2, "weather", Arr([Obj(map[])]));
    assert Get(d1, "wind", Obj(map[])) == Get(d2, "wind", Obj(map[]));
    assert Lookup(d1) == Lookup(d2);
  }

  /** The rendered block shows the pieces one after the other. */
  lemma RenderInOrder(r: Report)
    ensures ContainsInOrder(Render(r), Pieces(r))
  {
    InOrderStep(Labels, Pieces(r), "\n");
  }

  /** Interleaving labels with pieces shows the pieces in order. */
  lemma {:induction false} InOrderStep(labels: seq<string>, ps: seq<string>, tail: string)
    requires |labels| == |ps|
    ensures ContainsInOrder(Interleave(labels, ps) + tail, ps)
    decreases |ps|
  {
    if ps != [] {
      var rest := Interleave(labels[1..], ps[1..]) + tail;
      var s := Interleave(labels, ps) + tail;
      assert s == labels[0] + ps[0] + rest;
      var i := |labels[0]|;
      assert s[i..i + |ps[0]|] == ps[0];
      assert s[i + |ps[0]|..] == rest;
      InOrderStep(labels[1..], ps[1..], tail);
      assert OccursAt(s, ps[0], i) && ContainsInOrder(s[i + |ps[0]|..], ps[1..]);
    }
  }

  /** `get_weather` reports a failure exactly when fetching or formatting failed: the
      formatted block starts with a line break, the message with its fixed prefix. */
  lemma GetWeatherFailsIff(fetched: Outcome<Json>)
    ensures StartsWith(GetWeather(fetched), FetchErrorPrefix) <==>
      fetched.Err? || FormatWeatherData(fetched.value).Err?
  {
    var r := GetWeather(fetched);
    if fetched.Ok? && FormatWeatherData(fetched.value).Ok? {
      assert r[0] == '\n';
    } else {
      var msg := if fetched.Err? then fetched.msg else FormatWeatherData(fetched.value).msg;
      assert r == FetchErrorPrefix + msg;
      assert r[..|FetchErrorPrefix|] == FetchErrorPrefix;
    }
  }

  /** The error text is kept whole inside the message. */
  lemma FailureMessageKeepsError(msg: string)
    ensures Contains(GetWeather(Err(msg)), msg)
  {
    var r := GetWeather(Err(msg));
    assert r == FetchErrorPrefix + msg;
    assert r[|FetchErrorPrefix|..|FetchErrorPrefix| + |msg|] == msg;
    assert OccursAt(r, msg, |FetchErrorPrefix|);
  }

  /** A complete record as the service returns it. */
  const LondonRecord: Json := Obj(map[
    "name" := Str("London"),
    "sys" := Obj(map["country" := Str("GB")]),
    "main" := Obj(map["temp" := Number("15.2", false), "feels_like" := Number("14.5", false),
                      "humidity" := Number("76", true)]),
    "weather" := Arr([Obj(map["description" := Str("cloudy")])]),
    "wind" := Obj(map["speed" := Number("5.1", false)])])

  /** The complete record is shown field by field, each value in its own slot. */
  lemma LondonRecordShown()
    ensures GetWeather(Ok(LondonRecord)) == Render(Report("London", "GB", "15.2", "14.5", "cloudy", "76", "5.1"))
    ensures forall k :: 0 <= k < 6 ==>
      Contains(GetWeather(Ok(LondonRecord)), Pieces(Report("London", "GB", "15.2", "14.5", "cloudy", "76", "5.1"))[k])
  {
    var r := Report("London", "GB", "15.2", "14.5", "cloudy", "76", "5.1");
    var m := LondonRecord.fields;
    assert Formattable(LondonRecord);
    assert Slots(m) == r;
    assert FormatWeatherData(LondonRecord) == Ok(Render(r));
    RenderInOrder(r);
    forall k | 0 <= k < 6
      ensures Contains(Render(r), Pieces(r)[k])
    {
      InOrderContains(Render(r), Pieces(r), k);
    }
  }
}
