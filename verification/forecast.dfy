/** The `forecast` property of `CustomOpenWeatherMapWeather` in
    `owm_weather/owm.py`: which pyowm weather entries become forecast items,
    in which order, and how precipitation is rounded.

    Measurements are exact reals; a pyowm lookup that can come back `None`
    (`.get('day')`, `.get('all')`, ...) is an `Option`. The condition is
    carried as the raw weather code: its translation through
    `CONDITION_CLASSES` is not part of this model. */
module Forecast {
  import opened Wrappers
  import opened Rounding

  /** The configured forecast mode. */
  datatype Mode = Hourly | Daily | FreeDaily

  /** One pyowm `Weather` entry, reduced to what the forecast reads. */
  datatype WeatherEntry = WeatherEntry(
    referenceTime: int,          // `get_reference_time('unix')`, seconds
    hour: int,                   // `get_reference_time('date').hour`
    tempDay: Option<real>,       // `get_temperature('celsius').get('day')`
    tempNight: Option<real>,     // `... .get('night')`
    temp: Option<real>,          // `... .get('temp')`
    rainAll: Option<real>,       // `get_rain().get('all')`
    snowAll: Option<real>,       // `get_snow().get('all')`
    rain3h: Option<real>,        // `get_rain().get('3h')`
    windSpeed: Option<real>,
    windDeg: Option<real>,
    weatherCode: int)

  /** One forecast dictionary handed to Home Assistant. */
  datatype ForecastItem = ForecastItem(
    time: int,                   // milliseconds
    temperature: Option<real>,
    templow: Option<real>,
    precipitation: Option<real>,
    windSpeed: Option<real>,
    windBearing: Option<real>,
    condition: int)

  /** `calc_precipitation(rain, snow)`: a missing amount counts as 0, and a
      total that rounds to 0.0 is reported as no precipitation. */
  function CalcPrecipitation(rain: Option<real>, snow: Option<real>): (p: Option<real>)
    ensures var total := rain.GetOr(0.0) + snow.GetOr(0.0);
      && (p.None? <==> -0.05 <= total <= 0.05)
      && (p.Some? ==> p.value == Round1(total))
  {
    var total := rain.GetOr(0.0) + snow.GetOr(0.0);
    RoundsToZeroIff(total);
    if Round1(total) == 0.0 then None else Some(Round1(total))
  }

  /** The precipitation of a non-daily entry: the rounded three-hour rain
      when present and positive after rounding; snow is not consulted. */
  function HourlyPrecipitation(rain3h: Option<real>): (p: Option<real>)
    ensures p.None? <==> rain3h.None? || rain3h.value <= 0.05
    ensures p.Some? ==> p.value == Round1(rain3h.value) && p.value > 0.0
  {
    match rain3h
    case None => None
    case Some(amount) =>
      RoundsPositiveIff(amount);
      if Round1(amount) > 0.0 then Some(Round1(amount)) else None
  }

  /** The dictionary built for an entry in `daily` mode: the day
      temperature, the night temperature as the low, and rain plus snow
      over the whole period as precipitation. */
  function DailyItem(e: WeatherEntry): (item: ForecastItem)
    ensures item.time == e.referenceTime * 1000
    ensures item.temperature == e.tempDay && item.templow == e.tempNight
    ensures item.precipitation == CalcPrecipitation(e.rainAll, e.snowAll)
    ensures item.windSpeed == e.windSpeed && item.windBearing == e.windDeg && item.condition == e.weatherCode
  {
    ForecastItem(e.referenceTime * 1000, e.tempDay, e.tempNight,
      CalcPrecipitation(e.rainAll, e.snowAll), e.windSpeed, e.windDeg, e.weatherCode)
  }

  /** The dictionary built for an entry in the other modes: the current
      temperature, the night temperature as the low, and the three-hour
      rain alone as precipitation. */
  function HourlyItem(e: WeatherEntry): (item: ForecastItem)
    ensures item.time == e.referenceTime * 1000
    ensures item.temperature == e.temp && item.templow == e.tempNight
    ensures item.precipitation == HourlyPrecipitation(e.rain3h)
    ensures item.windSpeed == e.windSpeed && item.windBearing == e.windDeg && item.condition == e.weatherCode
  {
    ForecastItem(e.referenceTime * 1000, e.temp, e.tempNight,
      HourlyPrecipitation(e.rain3h), e.windSpeed, e.windDeg, e.weatherCode)
  }

  /** The two item builders read different measurements: a `daily` item
      never depends on the current temperature or the three-hour rain, and
      any other item never depends on the day temperature or on the
      whole-period rain and snow. Time, low, wind and condition agree. */
  lemma ItemsReadDifferentFields(e: WeatherEntry, f: WeatherEntry)
    requires f == e.(temp := f.temp, rain3h := f.rain3h, tempDay := f.tempDay, rainAll := f.rainAll, snowAll := f.snowAll)
    ensures f.temp == e.temp && f.rain3h == e.rain3h ==> HourlyItem(f) == HourlyItem(e)
    ensures f.tempDay == e.tempDay && f.rainAll == e.rainAll && f.snowAll == e.snowAll ==> DailyItem(f) == DailyItem(e)
    ensures DailyItem(e).time == HourlyItem(e).time && DailyItem(e).templow == HourlyItem(e).templow
    ensures DailyItem(e).windSpeed == HourlyItem(e).windSpeed && DailyItem(e).windBearing == HourlyItem(e).windBearing
    ensures DailyItem(e).condition == HourlyItem(e).condition
  {
  }

  /** Entries whose hour lies in [0, 6) are skipped outside `daily` mode. */
  predicate IsNight(e: WeatherEntry)
  {
    0 <= e.hour < 6
  }

  /** `weathers[::8]`: the entries at indices 0, 8, 16, ... in order. */
  function Every8<T>(s: seq<T>): (r: seq<T>)
    ensures |r| == (|s| + 7) / 8
    ensures forall k :: 0 <= k < |r| ==> 8 * k < |s| && r[k] == s[8 * k]
    decreases |s|
  {
    if |s| == 0 then []
    else if |s| <= 8 then [s[0]]
    else [s[0]] + Every8(s[8..])
  }

  /** The indices, in increasing order, of the entries not at night. */
  function DaytimeIndices(s: seq<WeatherEntry>): (idx: seq<int>)
    ensures |idx| <= |s|
    ensures forall k :: 0 <= k < |idx| ==> 0 <= idx[k] < |s| && !IsNight(s[idx[k]])
    ensures forall k, l :: 0 <= k < l < |idx| ==> idx[k] < idx[l]
    ensures forall i :: 0 <= i < |s| && !IsNight(s[i]) ==> i in idx
    decreases |s|
  {
    if |s| == 0 then []
    else
      var last := |s| - 1;
      DaytimeIndices(s[..last]) + (if IsNight(s[last]) then [] else [last])
  }

  /** Extending the prefix by one entry appends its index when it is not
      at night. */
  lemma DaytimeIndicesStep(s: seq<WeatherEntry>, i: nat)
    requires i < |s|
    ensures DaytimeIndices(s[..i + 1]) == DaytimeIndices(s[..i]) + (if IsNight(s[i]) then [] else [i])
  {
    assert s[..i + 1][..i] == s[..i];
  }

  /** The entries the loop runs over: every eighth in `freedaily` mode. */
  function Selected(mode: Mode, entries: seq<WeatherEntry>): (w: seq<WeatherEntry>)
    ensures |w| <= |entries|
    ensures mode == FreeDaily ==> forall k :: 0 <= k < |w| ==> 8 * k < |entries| && w[k] == entries[8 * k]
    ensures mode != FreeDaily ==> w == entries
  {
    if mode == FreeDaily then Every8(entries) else entries
  }

  /** The loop in `daily` mode: one item per entry, in order. */
  method DailyItems(weather: seq<WeatherEntry>) returns (data: seq<ForecastItem>)
    ensures |data| == |weather|
    ensures forall i :: 0 <= i < |weather| ==> data[i] == DailyItem(weather[i])
  {
    data := [];
    var i := 0;
    while i < |weather|
      invariant 0 <= i <= |weather|
      invariant |data| == i
      invariant forall j :: 0 <= j < i ==> data[j] == DailyItem(weather[j])
    {
      data := data + [DailyItem(weather[i])];
      i := i + 1;
    }
  }

  /** The loop in the other modes: night entries are skipped (`continue`)
      and every other entry gives one item, in order. */
  method DaytimeItems(weather: seq<WeatherEntry>) returns (data: seq<ForecastItem>)
    ensures var idx := DaytimeIndices(weather);
      |data| == |idx| && forall k :: 0 <= k < |idx| ==> data[k] == HourlyItem(weather[idx[k]])
  {
    data := [];
    ghost var idx: seq<int> := [];
    var i := 0;
    while i < |weather|
      invariant 0 <= i <= |weather|
      invariant idx == DaytimeIndices(weather[..i])
      invariant |data| == |idx|
      invariant forall k :: 0 <= k < |idx| ==> 0 <= idx[k] < i && data[k] == HourlyItem(weather[idx[k]])
    {
      DaytimeIndicesStep(weather, i);
      if !IsNight(weather[i]) {
        data := data + [HourlyItem(weather[i])];
        idx := idx + [i];
      }
      i := i + 1;
    }
    assert weather[..i] == weather;
  }

  /** The `forecast` property. In `daily` mode every entry gives one item;
      otherwise night entries are skipped and the others kept in order.
      `freedaily` is not `daily`, so it both strides and skips nights: what
      it keeps are the daytime entries among indices 0, 8, 16, ... */
  method BuildForecast(mode: Mode, entries: seq<WeatherEntry>) returns (data: seq<ForecastItem>)
    ensures |data| <= |entries|
    ensures mode == Daily ==> |data| == |entries| && forall i :: 0 <= i < |entries| ==> data[i] == DailyItem(entries[i])
    ensures mode != Daily ==>
      var w := Selected(mode, entries); var idx := DaytimeIndices(w);
      |data| == |idx| && forall k :: 0 <= k < |idx| ==> data[k] == HourlyItem(w[idx[k]])
    ensures mode == FreeDaily ==>
      forall k :: 0 <= k < |data| ==>
        var j := DaytimeIndices(Every8(entries))[k];
        8 * j < |entries| && !IsNight(entries[8 * j]) && data[k] == HourlyItem(entries[8 * j])
  {
    if mode == Daily {
      data := DailyItems(entries);
    } else {
      data := DaytimeItems(Selected(mode, entries));
    }
  }
}
