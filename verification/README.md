# Weather plugins for Home Assistant: a Dafny model of the decision logic

This project models the decision logic of three Home Assistant weather
plugins:

- the OpenWeatherMap wrapper, which tries each remote call first and, when
  it raises, serves the last value it pickled into a per-call cache slot
  (`custom_components/owm/cache.py`, `OwmClientWrapper` in
  `owm_weather/owm.py`);
- the forecast list that the OpenWeatherMap weather entity builds from
  pyowm entries, in its `hourly`, `daily` and `freedaily` modes;
- the Meteociel day-summary scraper (`custom_components/meteociel/meteociel.py`)
  and the sensor platform on top of it (`meteociel_sensor/sensor.py`).

Everything is immutable data and pure functions. Each stateful call returns
its result together with the new state.

## Modules

| file | module | what it holds |
|---|---|---|
| `wrappers.dfy` | `Wrappers` | `Option` (a value or Python `None`), `Result` (returns or raises), and the exception kinds |
| `text.dfy` | `Text` | `str.split` with a one-character separator and its inverse `join`, `%d` rendering and a reader that undoes it, URL query rendering and parsing |
| `rounding.dfy` | `Rounding` | `round(x, 1)` as round-half-to-even on exact reals |
| `cache.dfy` | `Cache` | the slot store: `set_cache_path`, `Cache(name)`, `get`, `update`, `exists` |
| `owm_client.dfy` | `OwmClient` | `OwmClientWrapper`: client construction and the three fallback fetches |
| `forecast.dfy` | `Forecast` | the `forecast` property: stride, night filter, precipitation rounding |
| `meteociel.dfy` | `Meteociel` | `WeatherData`: date defaulting, the query URL, table parsing |
| `meteociel_sensor.dfy` | `MeteocielSensor` | sensor-side `WeatherData`, `MeteocielSensor.update`, `setup_platform` |

## How the environment is represented

- **File system.** A `map<string, FileState<V>>` from path to regular file.
  A path that is not in the map has no file. A file is either `Valid(v)`,
  meaning it unpickles to `v`, or `Corrupt`, meaning it does not.
- **Writing a slot.** Each write has one of four outcomes, passed in as a
  `WriteOutcome`:
  - `Written`: the file opens and the value is pickled;
  - `DumpFails`: the file opens with mode `'wb'` and is truncated, then `pickle.dump` raises;
  - `CloseFails`: the value is pickled, but flushing it when the file closes raises (a full disk);
  - `OpenFails`: `open` itself raises.
- **Remote calls.** The pyowm service is a `Service<V>`: one function per
  call, from a client and the arguments to `Success(value)` or
  `Failure(exception)`. Whether `pyowm.OWM(api_key)` succeeds is a boolean.
- **Provenance.** A fetch result is labelled `Fresh(v)`, `Stale(cached)` or
  `Unavailable`. `Fetched.Returned()` gives the plain value or `None` that
  the Python method returns.
- **Meteociel page.** Today's date, the page lookup and Python's `float` are
  parameters:
  - the page lookup maps a URL to a raised exception, to no table, or to a table;
  - a table is a sequence of rows, and a row is the text of its cells;
  - `float` is an abstract partial function `string -> Option<real>`.
- **Floats** are exact `real`s. `round(x, 1)` is the nearest tenth, with ties
  going to the even tenth.

## Where the code departs from an ideal fallback cache (the model follows the code)

- **`exists()`** checks only that a file is present. It does not check that
  the content can be read. So `exists()` can hold while `get()` returns
  `None`.
- **`update()`** opens the slot with mode `'wb'` and pickles into it. There is
  no temporary file and no rename. When pickling fails, the file is left
  truncated (corrupt), and the value is still returned because of the
  `finally: return object`.
- **A flush that fails on close** raises `OSError` out of `update()`. The
  `finally: return object` runs inside the `with`, and the error raised
  while closing replaces that return. The slot was already truncated, so
  the fetch method falls back on a file that exists but reads `None`: the
  fresh reply and the previously cached value are both lost.
- **A corrupt slot** is served as a stale `None`, because `exists()` holds.
  The caller sees `None` either way, and nothing is raised.
- **An `open` failure after a successful remote call** takes the fallback
  path. The `update` call is inside the `try`, so the fresh reply is thrown
  away.
- **A missing Meteociel table** does not leave an object without fields.
  `__init__` executes `return -1, -1, -1, -1, -1`. Python raises `TypeError`
  when `__init__` returns a value. So the construction raises and no object
  exists.
- **A found Meteociel table is never falsy.** A BeautifulSoup tag is truthy
  whatever it contains, so the `if not table` test only catches a missing
  table. A found table without a second row, or with a short second row,
  raises `IndexError` from `parseWeatherTable`.
- **A failed sensor refresh** does not log. The `except` branch of
  `MeteocielSensor.update` refers to `_LOGGER`, which is not defined in that
  file, so the branch raises `NameError`. The sensor's state is still left
  unchanged.

## Model

| member | source | states |
|---|---|---|
| `Cache.JoinPath` | custom_components/owm/cache.py:20 | `os.path.join(root, name)`: an absolute name replaces the root; a relative one follows the root with exactly one separator |
| `Cache.JoinPathInjective` | custom_components/owm/cache.py:19-20 | two caches under one root share a file exactly when their (relative) names are equal |
| `Cache.SetCachePath` | custom_components/owm/cache.py:14-17 | the class-wide root becomes `config_path/cache` (with or without an added separator), replacing any earlier root |
| `Cache.NewCache` | custom_components/owm/cache.py:19-20 | construction only computes a path under the class-wide root; it raises `TypeError` exactly when `set_cache_path` has not run |
| `Cache.SetCachePathGovernsLaterCaches` | custom_components/owm/cache.py:12-20 | before configuration every cache construction raises; after it, every new cache is rooted at the new `cache` directory whatever the old root |
| `Cache.Exists` | custom_components/owm/cache.py:41-42 | `exists()` is presence of a file at the slot path, whatever its content |
| `Cache.Get` | custom_components/owm/cache.py:22-29 | returns a value exactly when the file exists and unpickles, and then the stored value; `None` for a missing file and for corrupt bytes, never raising |
| `Cache.Update` | custom_components/owm/cache.py:31-38 | returns its argument exactly when the file opens and closes, even when pickling fails; otherwise raises `OSError`; a successful dump makes `get` return the value; a failed dump or a failed close leaves an existing file that reads `None`; an open failure changes nothing; other paths are untouched |
| `Cache.UpdateThenGet` | custom_components/owm/cache.py:22-34 | after a successful `update(x)`, `get()` returns `x` |
| `Cache.LatestUpdateWins` | custom_components/owm/cache.py:31-34 | after `update(x)` then `update(y)` only `y` is readable |
| `Cache.FailedDumpCorrupts` | custom_components/owm/cache.py:31-38 | a failed dump turns an empty or valid slot into a corrupt one that exists but reads `None` |
| `Cache.FailedCloseRaisesAndCorrupts` | custom_components/owm/cache.py:31-38 | a flush failing on close raises `OSError` instead of returning, and leaves the slot existing but unreadable |
| `Cache.ExistsButUnreadableIffCorrupt` | custom_components/owm/cache.py:41-42 | `exists()` holds while `get()` is `None` exactly when the file is corrupt |
| `Cache.SameNameAliases` | custom_components/owm/cache.py:19-20 | two caches built with the same name alias one slot: what one writes the other reads |
| `Cache.DistinctNamesIndependent` | custom_components/owm/cache.py:19-38 | writing a cache never changes presence or content of a cache with a different relative name |
| `OwmClient.NewWrapper` | owm_weather/owm.py:133-139 | the wrapper starts with no client and three caches at `root/CustomOpenWeatherMap_<call>`; it raises `TypeError` when the cache root is unset |
| `OwmClient.GetOwmClient` | owm_weather/owm.py:141-150 | a stored client is reused; otherwise a client for the API key is returned exactly when construction succeeds, and `None` when it raises |
| `OwmClient.CallOn` | owm_weather/owm.py:153-156 | calling the service on a `None` client raises `AttributeError`; on a client it is the service's answer |
| `OwmClient.FetchWithFallback` | owm_weather/owm.py:155-162 | the result is fresh exactly when the reply succeeded and `update` returned, and then is the reply; a failed reply or an unopenable slot leaves the store unchanged; a failed close leaves the slot corrupt; a non-fresh result is stale exactly when the slot file then exists (holding what `get` reads) and unavailable otherwise; no other path changes |
| `OwmClient.WeatherAtCoords` | owm_weather/owm.py:152-162 | a fresh result is the service's weather at the given coordinates; only the weather slot can change |
| `OwmClient.DailyForecastAtCoords` | owm_weather/owm.py:164-173 | a fresh result is the service's daily forecast asked with `limit=None`; only the daily slot can change |
| `OwmClient.ThreeHoursForecastAtCoords` | owm_weather/owm.py:175-185 | a fresh result is the service's three-hour forecast at the given coordinates; only the three-hour slot can change |
| `OwmClient.FreshIsPersisted` | owm_weather/owm.py:155-156 | a successful, stored reply is returned and is what the slot reads afterwards |
| `OwmClient.FreshButSlotCorrupted` | owm_weather/owm.py:155-156 | a reply whose pickling fails is still returned, but leaves a slot that exists and reads `None` |
| `OwmClient.UnopenableSlotDiscardsReply` | owm_weather/owm.py:155-162 | a successful reply with an unopenable slot behaves exactly like a failed call |
| `OwmClient.FailureServesCachedValue` | owm_weather/owm.py:157-160 | with a slot holding `v0`, a failed call returns `v0` and leaves the store unchanged |
| `OwmClient.FailedCloseLosesCachedValue` | owm_weather/owm.py:155-160 | a reply whose flush fails on close is lost along with a cached `v0`: the call returns `None` and leaves the slot corrupt |
| `OwmClient.ColdStartUnavailable` | owm_weather/owm.py:161-162 | with no slot file, a failed call returns `None` and creates no file |
| `OwmClient.CorruptSlotServesNone` | owm_weather/owm.py:157-160 | with a corrupt slot, a failed call takes the cached branch and returns `None`, without raising |
| `OwmClient.SuccessThenFailure` | owm_weather/owm.py:155-160 | a stored reply is what a later failing call serves |
| `OwmClient.SecondSuccessOverwrites` | owm_weather/owm.py:155-156 | two successful calls leave exactly the second reply in the slot |
| `OwmClient.EveryCallBuildsClient` | owm_weather/owm.py:133-150 | since `self.owm` stays `None`, every call builds a new client from the API key, or gets `None` |
| `OwmClient.ClientFailureFallsBack` | owm_weather/owm.py:141-162 | when the client cannot be built, the call falls back on the slot whatever the service would answer, and the store is unchanged |
| `OwmClient.SlotsDistinct` | owm_weather/owm.py:137-139 | the three slots of a wrapper are three different files |
| `OwmClient.WeatherCallLeavesForecastSlots` | owm_weather/owm.py:137-162 | a weather call leaves what both forecast slots read unchanged |
| `OwmClient.DailyLimitIgnored` | owm_weather/owm.py:164-168 | the `limit` argument of the daily forecast call has no effect on result or store |
| `Rounding.Round1Tenths` | owm_weather/owm.py:72 | `round(x, 1)` is within half a tenth of `x`, and a tie goes to the even tenth |
| `Rounding.Round1` | owm_weather/owm.py:72-74 | `round(x, 1)` is a whole number of tenths within 0.05 of `x` |
| `Rounding.RoundsToZeroIff` | owm_weather/owm.py:72-73 | `round(x, 1) == 0` exactly when `-0.05 <= x <= 0.05` |
| `Rounding.RoundsPositiveIff` | owm_weather/owm.py:122 | `round(x, 1) > 0` exactly when `x > 0.05` |
| `Forecast.CalcPrecipitation` | owm_weather/owm.py:68-74 | missing rain or snow counts as 0; the result is `None` exactly when the total lies in [-0.05, 0.05], and otherwise the total rounded to a tenth |
| `Forecast.HourlyPrecipitation` | owm_weather/owm.py:119-123 | non-daily precipitation is `None` exactly when the three-hour rain is missing or at most 0.05, and otherwise the positive rounded rain |
| `Forecast.DailyItem` | owm_weather/owm.py:83-101 | a `daily` item: time in milliseconds, day temperature, night low, rain plus snow precipitation, wind and condition code of its entry |
| `Forecast.HourlyItem` | owm_weather/owm.py:108-126 | any other item: time in milliseconds, current temperature, night low, three-hour rain precipitation, wind and condition code of its entry |
| `Forecast.ItemsReadDifferentFields` | owm_weather/owm.py:82-126 | a `daily` item ignores the current temperature and three-hour rain, any other item ignores the day temperature and whole-period rain and snow; both agree on time, low, wind and condition |
| `Forecast.IsNight` | owm_weather/owm.py:103-107 | an entry is night, and skipped outside `daily` mode, when its hour is 0 to 5 |
| `Forecast.Every8` | owm_weather/owm.py:76-77 | `[::8]` keeps `ceil(n/8)` entries, the k-th being input entry `8k` |
| `Forecast.DaytimeIndices` | owm_weather/owm.py:103-107 | the kept indices are increasing, in range, all of non-night entries, and include every non-night entry |
| `Forecast.DaytimeIndicesStep` | owm_weather/owm.py:103-107 | looking at one more entry adds its index to the kept ones exactly when it is not at night |
| `Forecast.Selected` | owm_weather/owm.py:76-79 | `freedaily` iterates over entries `8k`; other modes over all entries |
| `Forecast.DailyItems` | owm_weather/owm.py:81-101 | in `daily` mode the output has one item per entry, in order |
| `Forecast.DaytimeItems` | owm_weather/owm.py:102-127 | outside `daily` mode the output is exactly the items of the non-night entries, in input order |
| `Forecast.BuildForecast` | owm_weather/owm.py:64-128 | the forecast is never longer than the input; `daily` keeps all entries; `freedaily` yields the non-night entries among indices 0, 8, 16, ... in order |
| `Text.SplitOn` | custom_components/meteociel/meteociel.py:42 | `s.split(c)` gives at least one piece, no piece holds `c`, and joining the pieces with `c` gives back `s` |
| `Text.SplitJoin` | custom_components/meteociel/meteociel.py:42 | splitting undoes joining when no piece holds the separator |
| `Text.Before` | custom_components/meteociel/meteociel.py:42 | `s.split(c)[0]` is the prefix of `s` up to (not including) its first `c` |
| `Text.IntToDecimal` | custom_components/meteociel/meteociel.py:22 | `%d` writes a minus sign exactly for negative numbers, followed by a non-empty run of digits |
| `Text.DigitsRoundTrip` | custom_components/meteociel/meteociel.py:22 | the decimal digits of `n` read back as `n` |
| `Text.DecimalRoundTrip` | custom_components/meteociel/meteociel.py:22 | what `%d` prints reads back as the same integer, negative ones included |
| `Text.QueryRoundTrip` | custom_components/meteociel/meteociel.py:22 | parsing a rendered `k=v&...` query gives back its pairs |
| `Meteociel.ResolveDate` | custom_components/meteociel/meteociel.py:10-18 | today's date is used when any of day, month, year is `None`; otherwise the three given values verbatim |
| `Meteociel.QueryPairs` | custom_components/meteociel/meteociel.py:22 | five query pairs with distinct names, none of which holds `=` or `&`, and no value holding `&` |
| `Meteociel.QueryUrl` | custom_components/meteociel/meteociel.py:22 | the fetched URL is the observation page followed by `?` and the rendered query pairs |
| `Meteociel.ParsedQueryOfUrl` | custom_components/meteociel/meteociel.py:22 | the query of the fetched URL parses back into its five pairs |
| `Meteociel.LookupQueryPairs` | custom_components/meteociel/meteociel.py:22 | the parameter names are pairwise distinct, and `code2`, `jour2`, `mois2`, `annee2` and `envoyer` each look up to their own value |
| `Meteociel.QueryUrlCarriesDate` | custom_components/meteociel/meteociel.py:20-22 | the URL's `code2`, `jour2`, `mois2`, `annee2` read back as the station code, the day, the month minus one and the year, and `envoyer` is `OK` |
| `Meteociel.UrlCarriesResolvedDate` | custom_components/meteociel/meteociel.py:10-22 | the URL carries the given day, month minus one and year when all three are given, and today's otherwise, even for the parts that were given |
| `Meteociel.CellNumber` | custom_components/meteociel/meteociel.py:41-56 | a missing cell gives `None`; a present one gives `float` of the text before its first space |
| `Meteociel.ParseWeatherTable` | custom_components/meteociel/meteociel.py:37-59 | succeeds exactly when there is a second row with at least five cells (else `IndexError`); numeric fields from cells 0-3, `sun` the raw text of cell 4 |
| `Meteociel.FieldsIndependent` | custom_components/meteociel/meteociel.py:41-56 | each numeric field depends on its own cell only |
| `Meteociel.BlankTokenGivesNone` | custom_components/meteociel/meteociel.py:41-56 | an empty cell or one starting with a space yields `None` for that field |
| `Meteociel.NewWeatherData` | custom_components/meteociel/meteociel.py:8-39 | the table is looked up at the URL for the resolved date; a raising lookup propagates; no table raises `TypeError`; a found table, of any size, is parsed and succeeds exactly when it has a second row of at least five cells, else raises `IndexError`; a parsed object carries that date, that URL (a local in Python, kept as a field by the model) and the table's summary |
| `MeteocielSensor.NewSensorData` | meteociel_sensor/sensor.py:105-113 | a new data object keeps the station code and starts at rain 0.0, maximum 19.9, minimum 9.9, wind 0.0 and sun `N/A` |
| `MeteocielSensor.OrDefault` | meteociel_sensor/sensor.py:121-125 | `x if x else default`: a truthy reading is kept, `None` or 0 gives the default |
| `MeteocielSensor.TextOrDefault` | meteociel_sensor/sensor.py:124 | a non-empty `sun` text is kept, an empty one becomes the default |
| `MeteocielSensor.UpdateData` | meteociel_sensor/sensor.py:115-125 | a throttled refresh changes nothing; a raising construction propagates with no field changed; otherwise each field is the truthy fetched value or its default, and the station code never changes |
| `MeteocielSensor.ZeroReadingBecomesDefault` | meteociel_sensor/sensor.py:121-122 | a fetched maximum or minimum of exactly 0 is stored as 19.9 or 9.9 |
| `MeteocielSensor.InitialValuesAreDefaults` | meteociel_sensor/sensor.py:105-125 | the initial values (rain 0.0, tmax 19.9, tmin 9.9, wind 0.0, sun `N/A`) are what an update stores when nothing usable is fetched |
| `MeteocielSensor.Reading` | meteociel_sensor/sensor.py:92-99 | the dispatch yields a value exactly for the four types of the table: rain, maximum and minimum as stored, wind rounded to 0.1 |
| `MeteocielSensor.UpdateSensor` | meteociel_sensor/sensor.py:84-99 | a failed refresh raises `NameError` and leaves sensor and data unchanged; otherwise only the state changes, to the value of the sensor's own type (wind rounded to 0.1), or not at all for an unknown type |
| `MeteocielSensor.SetupPlatform` | meteociel_sensor/sensor.py:39-49 | four sensors in the order rain, max, min, wind, named and united from the type table, with no state; data starts at the defaults |
| `MeteocielSensor.SetupCoversEveryType` | meteociel_sensor/sensor.py:28-47 | every type of the table gets exactly one sensor, and every sensor's type is handled by the update dispatch |

## Left out

- Pickle's byte format is not modelled. A slot file is only `Valid(v)` or `Corrupt`. A truncated dump, or a pickle whose flush failed part-way, is taken to be unreadable.
- A slot file that exists but cannot be opened for reading is not modelled. `get()` would raise out of the `except` branch of the fetch methods.
- Directories are not modelled, so the `os.makedirs` in `set_cache_path` has no effect in the model.
- Network access, pyowm and BeautifulSoup are parameters of the model, not implementations. This covers `requests.get`, the search for the `#FFFF99` table and every pyowm call.
- `date.today()` is a parameter.
- `@Throttle` timing is not modelled. Whether a refresh is skipped is a boolean input.
- Floating-point representation error is not modelled. Floats are exact reals, `float(...)` is an abstract partial parser, and `round(x, 1)` is exact round-half-to-even.
- The translation of a weather code through `CONDITION_CLASSES` is not modelled, because that table is imported from Home Assistant (`owm_weather/owm.py:18`) and its contents are not in the repository. A forecast item carries the raw code. The `IndexError` raised for an unknown code is also not modelled.
- `print` and logging are side effects only and are not modelled.
- Home Assistant glue is not modelled: platform schemas, entity properties, `add_entities`, and the weather entity's `setup_platform` beyond `set_cache_path` and the wrapper construction.
- OwmClient.GetOwmClient: a failing `import pyowm` is not modelled. The import sits outside the `try` of `get_owm_client`, which is itself called before the `try` of each fetch method, so the `ImportError` escapes all three fetch methods; the model assumes pyowm is installed, and its fetch functions always return a `Fetched` result.
- `bme280_spi_sensor/sensor.py` is not part of this model. It is a hardware driver wrapper around float rounding and throttling.
