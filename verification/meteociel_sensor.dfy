/** The Meteociel sensor platform of `meteociel_sensor/sensor.py`: a shared
    `WeatherData` that keeps the last values with fixed defaults, and four
    sensors that each copy one of those values into their state.

    Python truthiness decides the defaults: a reading that is `None` or
    exactly 0, and a `sun` text that is empty, count as missing. */
module MeteocielSensor {
  import opened Wrappers
  import opened Rounding
  import Meteociel

  const DefaultRain := 0.0
  const DefaultTmax := 19.9
  const DefaultTmin := 9.9
  const DefaultWind := 0.0
  const DefaultSun := "N/A"

  /** The sensor-side `WeatherData`: the station code and the last values. */
  datatype SensorData = SensorData(cityCode: int, rain: real, tmax: real, tmin: real, wind: real, sun: string)

  /** What a refresh of the day summary sees: whether `@Throttle` skips it
      (the previous refresh was less than ten minutes ago), today's date,
      the page lookup and `float`. */
  datatype Environment = Environment(
    throttled: bool,
    today: Meteociel.Date,
    lookup: string -> Result<Option<Meteociel.Table>, Exception>,
    parse: string -> Option<real>)

  /** `WeatherData(cityCode)`: every value starts at its default. */
  function NewSensorData(cityCode: int): (data: SensorData)
    ensures data.cityCode == cityCode
    ensures data.rain == 0.0 && data.tmax == 19.9 && data.tmin == 9.9 && data.wind == 0.0 && data.sun == "N/A"
  {
    SensorData(cityCode, DefaultRain, DefaultTmax, DefaultTmin, DefaultWind, DefaultSun)
  }

  /** Python truthiness of an optional float. */
  predicate Truthy(x: Option<real>)
  {
    x.Some? && x.value != 0.0
  }

  /** `x if x else default` for an optional float. */
  function OrDefault(x: Option<real>, default: real): (r: real)
    ensures Truthy(x) ==> r == x.value
    ensures !Truthy(x) ==> r == default
  {
    if Truthy(x) then x.value else default
  }

  /** `x if x else default` for a string. */
  function TextOrDefault(x: string, default: string): (r: string)
    ensures |x| > 0 ==> r == x
    ensures |x| == 0 ==> r == default
  {
    if |x| > 0 then x else default
  }

  /** `WeatherData.update()`: when throttled, nothing happens. Otherwise it
      builds today's day summary; if that raises the exception propagates
      before any value is assigned, otherwise each value is the fetched one
      when truthy and its default when not. The station code never
      changes. */
  function UpdateData(data: SensorData, env: Environment): (r: (Result<(), Exception>, SensorData))
    ensures r.1.cityCode == data.cityCode
    ensures env.throttled ==> r == (Success(()), data)
    ensures !env.throttled ==> var fetched := Meteociel.NewWeatherData(data.cityCode, None, None, None, env.today, env.lookup, env.parse);
      && (fetched.Failure? ==> r.0 == Failure(fetched.error) && r.1 == data)
      && (fetched.Success? ==>
            var s := fetched.value.summary;
            && r.0.Success?
            && (Truthy(s.tmax) ==> r.1.tmax == s.tmax.value) && (!Truthy(s.tmax) ==> r.1.tmax == DefaultTmax)
            && (Truthy(s.tmin) ==> r.1.tmin == s.tmin.value) && (!Truthy(s.tmin) ==> r.1.tmin == DefaultTmin)
            && (Truthy(s.wind) ==> r.1.wind == s.wind.value) && (!Truthy(s.wind) ==> r.1.wind == DefaultWind)
            && (Truthy(s.rain) ==> r.1.rain == s.rain.value) && (!Truthy(s.rain) ==> r.1.rain == DefaultRain)
            && r.1.sun == TextOrDefault(s.sun, DefaultSun))
  {
    if env.throttled then (Success(()), data)
    else match Meteociel.NewWeatherData(data.cityCode, None, None, None, env.today, env.lookup, env.parse)
    case Failure(e) => (Failure(e), data)
    case Success(w) =>
      var s := w.summary;
      (Success(()), data.(
        tmax := OrDefault(s.tmax, DefaultTmax),
        tmin := OrDefault(s.tmin, DefaultTmin),
        wind := OrDefault(s.wind, DefaultWind),
        sun := TextOrDefault(s.sun, DefaultSun),
        rain := OrDefault(s.rain, DefaultRain)))
  }

  /** A genuine reading of exactly 0 is indistinguishable from a missing
      one: a maximum or minimum temperature of 0 degrees is stored as the
      default 19.9 or 9.9. */
  lemma ZeroReadingBecomesDefault(data: SensorData, env: Environment)
    requires !env.throttled
    requires var fetched := Meteociel.NewWeatherData(data.cityCode, None, None, None, env.today, env.lookup, env.parse);
      fetched.Success? && fetched.value.summary.tmax == Some(0.0) && fetched.value.summary.tmin == Some(0.0)
    ensures UpdateData(data, env).1.tmax == 19.9 && UpdateData(data, env).1.tmin == 9.9
  {
  }

  /** The initial values are exactly what an update stores when nothing
      usable was fetched. */
  lemma InitialValuesAreDefaults(cityCode: int, data: SensorData, env: Environment)
    requires data.cityCode == cityCode && !env.throttled
    requires var fetched := Meteociel.NewWeatherData(cityCode, None, None, None, env.today, env.lookup, env.parse);
      && fetched.Success?
      && !Truthy(fetched.value.summary.tmax) && !Truthy(fetched.value.summary.tmin)
      && !Truthy(fetched.value.summary.wind) && !Truthy(fetched.value.summary.rain)
      && fetched.value.summary.sun == ""
    ensures UpdateData(data, env).1 == NewSensorData(cityCode)
  {
  }

  // ---------------------------------------------------------------------
  // Sensors

  /** The `SENSOR_TYPES` table: display name and unit per sensor type. */
  const SensorTypes: map<string, (string, string)> := map[
    "max_temperature" := ("Max Temperature", "°C"),
    "min_temperature" := ("Min Temperature", "°C"),
    "wind_speed" := ("Wind speed", "m/s"),
    "rain" := ("Rain", "mm")]

  /** The order in which `setup_platform` creates the sensors. */
  const SetupOrder: seq<string> := ["rain", "max_temperature", "min_temperature", "wind_speed"]

  /** A `MeteocielSensor`; its `WeatherData` is passed to each update. */
  datatype Sensor = Sensor(name: string, kind: string, state: Option<real>, unit: string)

  /** The value a sensor of type `kind` shows; `None` for a type that no
      branch of the dispatch handles. Wind speed is rounded to 0.1. */
  function Reading(kind: string, data: SensorData): (v: Option<real>)
    ensures v.Some? <==> kind in SensorTypes
    ensures kind == "wind_speed" ==> v == Some(Round1(data.wind))
    ensures kind == "rain" ==> v == Some(data.rain)
    ensures kind == "max_temperature" ==> v == Some(data.tmax)
    ensures kind == "min_temperature" ==> v == Some(data.tmin)
  {
    if kind == "rain" then Some(data.rain)
    else if kind == "max_temperature" then Some(data.tmax)
    else if kind == "min_temperature" then Some(data.tmin)
    else if kind == "wind_speed" then Some(Round1(data.wind))
    else None
  }

  /** `MeteocielSensor.update()`. If refreshing the data raises, the `except`
      branch calls the undefined `_LOGGER` and raises `NameError`, with the
      state untouched. Otherwise only the state changes: it becomes the
      value of the sensor's own type, or stays as it was for an unknown
      type. */
  function UpdateSensor(s: Sensor, data: SensorData, env: Environment): (r: (Result<(), Exception>, Sensor, SensorData))
    ensures r.2 == UpdateData(data, env).1
    ensures UpdateData(data, env).0.Failure? ==> r.0 == Failure(NameError) && r.1 == s && r.2 == data
    ensures UpdateData(data, env).0.Success? ==>
      && r.0.Success?
      && r.1.name == s.name && r.1.kind == s.kind && r.1.unit == s.unit
      && (Reading(s.kind, r.2).Some? ==> r.1.state == Reading(s.kind, r.2))
      && (Reading(s.kind, r.2).None? ==> r.1.state == s.state)
  {
    var (outcome, data') := UpdateData(data, env);
    if outcome.Failure? then (Failure(NameError), s, data')
    else
      var shown := Reading(s.kind, data');
      (Success(()), if shown.Some? then s.(state := shown) else s, data')
  }

  /** `setup_platform`: one shared `WeatherData` and four sensors, in the
      order rain, maximum, minimum, wind, named and united from the table,
      with no state yet. */
  function SetupPlatform(cityCode: int): (r: (SensorData, seq<Sensor>))
    ensures r.0 == NewSensorData(cityCode)
    ensures |r.1| == 4
    ensures forall i :: 0 <= i < 4 ==>
      && r.1[i].kind == SetupOrder[i]
      && r.1[i].kind in SensorTypes
      && r.1[i].name == SensorTypes[r.1[i].kind].0
      && r.1[i].unit == SensorTypes[r.1[i].kind].1
      && r.1[i].state.None?
  {
    var sensors := seq(4, i requires 0 <= i < 4 =>
      Sensor(SensorTypes[SetupOrder[i]].0, SetupOrder[i], None, SensorTypes[SetupOrder[i]].1));
    (NewSensorData(cityCode), sensors)
  }

  /** Every type in the table gets exactly one sensor, and every sensor's
      type is one the update dispatch handles, so a successful update always
      gives each sensor a state. */
  lemma SetupCoversEveryType(cityCode: int, data: SensorData)
    ensures var sensors := SetupPlatform(cityCode).1;
      && (forall kind :: kind in SensorTypes <==> exists i :: 0 <= i < 4 && sensors[i].kind == kind)
      && (forall i, j :: 0 <= i < j < 4 ==> sensors[i].kind != sensors[j].kind)
      && (forall i :: 0 <= i < 4 ==> Reading(sensors[i].kind, data).Some?)
  {
    var sensors := SetupPlatform(cityCode).1;
    forall kind | kind in SensorTypes
      ensures exists i :: 0 <= i < 4 && sensors[i].kind == kind
    {
      if kind == "rain" { assert sensors[0].kind == kind; }
      else if kind == "max_temperature" { assert sensors[1].kind == kind; }
      else if kind == "min_temperature" { assert sensors[2].kind == kind; }
      else { assert sensors[3].kind == kind; }
    }
  }
}
