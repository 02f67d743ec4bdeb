/** The Open-Meteo forecast call shared by the grid fetcher
    (`fetch_weather_data` in `openmeteo/fetch_weather_data.py`) and the city
    fetcher (`fetch_city_weather_data` in
    `backend/collectors/update_city_weather.py`): both read the five current
    variables by position and pair response `i` with location `i`. */
module OpenMeteo {
  import opened Common
  import opened Json
  import Text

  /** One response of the client, as the code reads it. `fetchedAt` is what
      `datetime.now().isoformat()` gives while that response is processed. */
  datatype Response = Response(
    latitude: real,
    longitude: real,
    elevation: real,
    variables: seq<real>,
    time: Option<int>,
    timezone: Option<string>,
    utcOffsetSeconds: Option<int>,
    fetchedAt: string)

  /** What `openmeteo_client.weather_api(...)` does: return responses, or raise. */
  datatype Reply = Responses(items: seq<Response>) | Raise(message: string)

  /** The `current` variables, in the order they are requested. */
  const VariableNames: seq<string> :=
    ["temperature_2m", "relative_humidity_2m", "weather_code", "wind_speed_10m", "wind_direction_10m"]

  /** Python `int(x)` on a float: truncation toward zero. */
  function Trunc(x: real): (n: int)
    ensures x >= 0.0 ==> n as real <= x < n as real + 1.0
    ensures x < 0.0 ==> n as real - 1.0 < x <= n as real
  {
    if x >= 0.0 then x.Floor else -((-x).Floor)
  }

  /** Variable `k` read by position: filled exactly when `VariablesLength() > k`. */
  method ExtractCurrentVars(values: seq<real>) returns (vars: map<string, real>)
    ensures forall name :: name in vars ==> name in VariableNames
    ensures forall k :: 0 <= k < 5 ==> (VariableNames[k] in vars <==> |values| > k)
    ensures forall k :: 0 <= k < 5 && |values| > k ==> vars[VariableNames[k]] == values[k]
  {
    vars := map[];
    if |values| > 0 {
      if |values| > 0 {
        vars := vars["temperature_2m" := values[0]];
      }
      if |values| > 1 {
        vars := vars["relative_humidity_2m" := values[1]];
      }
      if |values| > 2 {
        vars := vars["weather_code" := values[2]];
      }
      if |values| > 3 {
        vars := vars["wind_speed_10m" := values[3]];
      }
      if |values| > 4 {
        vars := vars["wind_direction_10m" := values[4]];
      }
    }
  }

  /** `float(current_vars.get(name))`, or `int(...)` for the weather code; None when absent. */
  function VarValue(vars: map<string, real>, name: string): Json
  {
    if name !in vars then JNull
    else if name == "weather_code" then JInt(Trunc(vars[name]))
    else JFloat(vars[name])
  }

  /** `str(response.Timezone())` with the bytes markers removed. */
  function TimezoneText(s: string): string
  {
    Text.ReplaceAll(Text.ReplaceAll(s, "b'", ""), "'", "")
  }

  function OptionalInt(v: Option<int>): Json
  {
    match v case None => JNull case Some(i) => JInt(i)
  }

  /** The `weather_data` dict built from `current_vars`. */
  function WeatherDataOf(vars: map<string, real>, r: Response): Doc
  {
    map[
      "temperature_2m" := VarValue(vars, "temperature_2m"),
      "relative_humidity_2m" := VarValue(vars, "relative_humidity_2m"),
      "weather_code" := VarValue(vars, "weather_code"),
      "wind_speed_10m" := VarValue(vars, "wind_speed_10m"),
      "wind_direction_10m" := VarValue(vars, "wind_direction_10m"),
      "timestamp" := OptionalInt(r.time),
      "timezone" := (match r.timezone case None => JNull case Some(s) => JStr(TimezoneText(s))),
      "utc_offset_seconds" := OptionalInt(r.utcOffsetSeconds),
      "fetched_at" := JStr(r.fetchedAt)
    ]
  }

  /** Variable `k` of a response, read by position. */
  function Positional(values: seq<real>, k: nat): Json
  {
    if |values| <= k then JNull
    else if k == 2 then JInt(Trunc(values[k]))
    else JFloat(values[k])
  }

  /** The `weather_data` of a response, stated by position. */
  function WeatherData(r: Response): (d: Doc)
    ensures forall k :: 0 <= k < 5 ==> VariableNames[k] in d && d[VariableNames[k]] == Positional(r.variables, k)
    ensures "fetched_at" in d && d["fetched_at"] == JStr(r.fetchedAt)
  {
    var v := r.variables;
    map[
      "temperature_2m" := Positional(v, 0),
      "relative_humidity_2m" := Positional(v, 1),
      "weather_code" := Positional(v, 2),
      "wind_speed_10m" := Positional(v, 3),
      "wind_direction_10m" := Positional(v, 4),
      "timestamp" := OptionalInt(r.time),
      "timezone" := (match r.timezone case None => JNull case Some(s) => JStr(TimezoneText(s))),
      "utc_offset_seconds" := OptionalInt(r.utcOffsetSeconds),
      "fetched_at" := JStr(r.fetchedAt)
    ]
  }

  /** A weather field is set exactly when the response has that many variables. */
  lemma FieldPresentIff(r: Response, k: nat)
    requires k < 5
    ensures WeatherData(r)[VariableNames[k]] != JNull <==> |r.variables| > k
  {
  }

  /** Filling `current_vars` by position and reading it back gives the positional fields. */
  lemma WeatherDataOfExtracted(vars: map<string, real>, r: Response)
    requires forall k :: 0 <= k < 5 ==> (VariableNames[k] in vars <==> |r.variables| > k)
    requires forall k :: 0 <= k < 5 && |r.variables| > k ==> vars[VariableNames[k]] == r.variables[k]
    ensures WeatherDataOf(vars, r) == WeatherData(r)
  {
    assert VariableNames[0] == "temperature_2m" && VariableNames[1] == "relative_humidity_2m";
    assert VariableNames[2] == "weather_code" && VariableNames[3] == "wind_speed_10m";
    assert VariableNames[4] == "wind_direction_10m";
  }

  /** The processed record for one location and its response. */
  function Processed(loc: Doc, r: Response): Doc
    requires "name" in loc && "lat" in loc && "lon" in loc
  {
    map[
      "name" := loc["name"],
      "lat" := loc["lat"],
      "lon" := loc["lon"],
      "coordinates" := JObj(map["latitude" := JFloat(r.latitude), "longitude" := JFloat(r.longitude), "elevation" := JFloat(r.elevation)]),
      "weather_data" := JObj(WeatherData(r))
    ]
  }

  /** What the fetch returns. Reading `lat`, then `lon`, of every location
      happens before the `try`, so a missing one raises KeyError to the
      caller; everything after it, the call itself and a location without
      `name`, is caught and gives an empty list. */
  function FetchSpec(locations: seq<Doc>, reply: Reply): Result<seq<Doc>>
  {
    if locations == [] then Ok([])
    else if exists i :: 0 <= i < |locations| && "lat" !in locations[i] then Err("KeyError: 'lat'")
    else if exists i :: 0 <= i < |locations| && "lon" !in locations[i] then Err("KeyError: 'lon'")
    else match reply
      case Raise(_) => Ok([])
      case Responses(rs) =>
        var n := Min(|rs|, |locations|);
        if exists i :: 0 <= i < n && "name" !in locations[i] then Ok([])
        else Ok(seq(n, i requires 0 <= i < n => Processed(locations[i], rs[i])))
  }

  /** Output `i` pairs location `i` with response `i`; nothing is produced
      beyond the shorter of the two lists. */
  lemma FetchPairs(locations: seq<Doc>, reply: Reply)
    requires FetchSpec(locations, reply).Ok?
    ensures var out := FetchSpec(locations, reply).value;
      && (reply.Raise? ==> out == [])
      && (reply.Responses? ==> |out| <= Min(|reply.items|, |locations|))
      && (reply.Responses? && out != [] ==> |out| == Min(|reply.items|, |locations|))
      && forall i :: 0 <= i < |out| ==>
           reply.Responses? && i < |reply.items| && i < |locations|
           && "name" in locations[i] && out[i]["name"] == locations[i]["name"]
           && out[i]["lat"] == locations[i]["lat"] && out[i]["lon"] == locations[i]["lon"]
           && out[i]["weather_data"] == JObj(WeatherData(reply.items[i]))
  {
  }

  /** Output never fails once both coordinates are present, and is empty for no locations. */
  lemma FetchErrors(locations: seq<Doc>, reply: Reply)
    ensures locations == [] ==> FetchSpec(locations, reply) == Ok([])
    ensures FetchSpec(locations, reply).Err? <==>
      exists i :: 0 <= i < |locations| && ("lat" !in locations[i] || "lon" !in locations[i])
  {
  }

  /** The fetch itself: collect the coordinates, call the service, and build
      one record per response that has a location. */
  method FetchCurrent(locations: seq<Doc>, reply: Reply) returns (r: Result<seq<Doc>>)
    ensures r == FetchSpec(locations, reply)
  {
    if locations == [] {
      return Ok([]);
    }
    var j := 0;
    while j < |locations|
      invariant 0 <= j <= |locations|
      invariant forall i :: 0 <= i < j ==> "lat" in locations[i]
    {
      if "lat" !in locations[j] {
        return Err("KeyError: 'lat'");
      }
      j := j + 1;
    }
    j := 0;
    while j < |locations|
      invariant 0 <= j <= |locations|
      invariant forall i :: 0 <= i < j ==> "lon" in locations[i]
    {
      if "lon" !in locations[j] {
        return Err("KeyError: 'lon'");
      }
      j := j + 1;
    }
    if reply.Raise? {
      return Ok([]);
    }
    r := ProcessResponses(locations, reply.items);
  }

  /** The body of the `try` once the service has answered: the record built
      from `current_vars` for each response that has a location. */
  method ProcessResponses(locations: seq<Doc>, responses: seq<Response>) returns (r: Result<seq<Doc>>)
    requires forall i :: 0 <= i < |locations| ==> "lat" in locations[i] && "lon" in locations[i]
    ensures var n := Min(|responses|, |locations|);
      r == if exists i :: 0 <= i < n && "name" !in locations[i] then Ok([])
           else Ok(seq(n, i requires 0 <= i < n => Processed(locations[i], responses[i])))
  {
    ghost var n := Min(|responses|, |locations|);
    var processed: seq<Doc> := [];
    var i := 0;
    while i < |responses|
      invariant 0 <= i <= |responses|
      invariant |processed| == Min(i, |locations|)
      invariant forall k :: 0 <= k < |processed| ==> "name" in locations[k] && processed[k] == Processed(locations[k], responses[k])
    {
      if i < |locations| {
        var location := locations[i];
        if "name" !in location {
          return Ok([]);
        }
        var record := ProcessOne(location, responses[i]);
        processed := processed + [record];
      }
      i := i + 1;
    }
    assert |processed| == n;
    assert processed == seq(n, k requires 0 <= k < n => Processed(locations[k], responses[k]));
    return Ok(processed);
  }

  /** The body of the loop for one location and its response. */
  method ProcessOne(location: Doc, current: Response) returns (record: Doc)
    requires "name" in location && "lat" in location && "lon" in location
    ensures record == Processed(location, current)
  {
    var vars := ExtractCurrentVars(current.variables);
    WeatherDataOfExtracted(vars, current);
    record := Record(location, vars, current);
  }

  /** The `processed_location` dict, built from `current_vars`. */
  function Record(loc: Doc, vars: map<string, real>, r: Response): (d: Doc)
    requires "name" in loc && "lat" in loc && "lon" in loc
    ensures WeatherDataOf(vars, r) == WeatherData(r) ==> d == Processed(loc, r)
  {
    map[
      "name" := loc["name"],
      "lat" := loc["lat"],
      "lon" := loc["lon"],
      "coordinates" := JObj(map["latitude" := JFloat(r.latitude), "longitude" := JFloat(r.longitude), "elevation" := JFloat(r.elevation)]),
      "weather_data" := JObj(WeatherDataOf(vars, r))
    ]
  }
}
