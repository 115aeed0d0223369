/** `OwmClientWrapper` of `owm_weather/owm.py`: three OpenWeatherMap calls,
    each tried first and, when it raises, replaced by the last value its own
    cache slot holds.

    The pyowm service is a parameter: one function per remote call, from a
    client and the call's arguments to a value or a raised exception. A call
    returns the value it hands to its caller together with the new slot
    store; the fallback is classified as `Fresh`, `Stale` or `Unavailable`,
    and `Returned` gives the plain value (or `None`) the Python method
    returns. */
module OwmClient {
  import opened Wrappers
  import opened Cache

  const DefaultName := "CustomOpenWeatherMap"
  const WeatherSlot := DefaultName + "_weather_at_coords"
  const DailySlot := DefaultName + "_daily_forecast_at_coords"
  const ThreeHoursSlot := DefaultName + "_three_hours_forecast_at_coords"

  /** A constructed `pyowm.OWM` client. */
  datatype Client = Client(apiKey: string)

  /** The remote calls of a pyowm client. `dailyAt` also takes the `limit`
      keyword argument. */
  datatype Service<V> = Service(
    weatherAt: (Client, real, real) -> Result<V, Exception>,
    dailyAt: (Client, real, real, Option<int>) -> Result<V, Exception>,
    threeHoursAt: (Client, real, real) -> Result<V, Exception>)

  /** What the world does during one call: whether `pyowm.OWM(api_key)`
      succeeds, what the service answers, and how writing the slot goes. */
  datatype Environment<V> = Environment(clientBuilds: bool, service: Service<V>, write: WriteOutcome)

  /** Where a returned value came from. */
  datatype Fetched<V> = Fresh(value: V) | Stale(cached: Option<V>) | Unavailable {

    /** The value the Python method returns (`None` for no value). */
    function Returned(): Option<V> {
      match this
      case Fresh(v) => Some(v)
      case Stale(c) => c
      case Unavailable => None
    }
  }

  datatype Wrapper = Wrapper(
    apiKey: string,
    owm: Option<Client>,
    weatherCache: Cache,
    dailyCache: Cache,
    threeHoursCache: Cache)

  /** `OwmClientWrapper(api_key)`: no client yet and one cache per call.
      Building a cache before `set_cache_path` raises `TypeError`. */
  function NewWrapper(cls: CacheClass, apiKey: string): (r: Result<Wrapper, Exception>)
    ensures r.Failure? <==> cls.cachePath.None?
    ensures r.Failure? ==> r.error == TypeError
    ensures r.Success? ==> r.value.owm.None? && r.value.apiKey == apiKey
    ensures r.Success? ==>
      && r.value.weatherCache.cacheFile == JoinPath(cls.cachePath.value, WeatherSlot)
      && r.value.dailyCache.cacheFile == JoinPath(cls.cachePath.value, DailySlot)
      && r.value.threeHoursCache.cacheFile == JoinPath(cls.cachePath.value, ThreeHoursSlot)
  {
    match NewCache(cls, WeatherSlot)
    case Failure(e) => Failure(e)
    case Success(weather) =>
      match NewCache(cls, DailySlot)
      case Failure(e) => Failure(e)
      case Success(daily) =>
        match NewCache(cls, ThreeHoursSlot)
        case Failure(e) => Failure(e)
        case Success(threeHours) => Success(Wrapper(apiKey, None, weather, daily, threeHours))
  }

  /** `get_owm_client()`: the stored client if there is one, otherwise a new
      client for the API key, or `None` when construction raises. */
  function GetOwmClient(w: Wrapper, builds: bool): (r: Option<Client>)
    ensures w.owm.Some? ==> r == w.owm
    ensures w.owm.None? ==> (r.Some? <==> builds)
    ensures w.owm.None? && r.Some? ==> r.value.apiKey == w.apiKey
  {
    if w.owm.Some? then w.owm
    else if builds then Some(Client(w.apiKey))
    else None
  }

  /** Calling a method on the client; on `None` this raises
      `AttributeError`, inside the same `try` as the call itself. */
  function CallOn<V>(client: Option<Client>, call: Client -> Result<V, Exception>): (r: Result<V, Exception>)
    ensures client.None? ==> r == Failure(AttributeError)
    ensures client.Some? ==> r == call(client.value)
  {
    match client
    case None => Failure(AttributeError)
    case Some(c) => call(c)
  }

  /** The body shared by the three methods: `return slot.update(reply)`
      inside a `try`; on any exception (the reply's own, the file not
      opening, or its flush failing on close) `slot.get()` if the slot file
      now exists, else `None`. */
  function FetchWithFallback<V>(store: Store<V>, slot: Cache, reply: Result<V, Exception>, write: WriteOutcome)
    : (r: (Fetched<V>, Store<V>))
    ensures r.0.Fresh? <==> reply.Success? && Returns(write)
    ensures r.0.Fresh? ==> r.0.value == reply.value
    ensures reply.Failure? || write == OpenFails ==> r.1 == store
    ensures reply.Success? && write == CloseFails ==> r.1 == store[slot.cacheFile := Corrupt]
    ensures r.0.Stale? <==> !r.0.Fresh? && Exists(r.1, slot)
    ensures r.0.Stale? ==> r.0.cached == Get(r.1, slot)
    ensures forall p :: p in store && p != slot.cacheFile ==> p in r.1 && r.1[p] == store[p]
    ensures forall p :: p in r.1 && p != slot.cacheFile ==> p in store
  {
    var attempt := match reply
      case Success(v) => Update(store, slot, v, write)
      case Failure(e) => (Failure(e), store);
    match attempt.0
    case Success(v) => (Fresh(v), attempt.1)
    case Failure(_) =>
      if Exists(attempt.1, slot) then (Stale(Get(attempt.1, slot)), attempt.1)
      else (Unavailable, attempt.1)
  }

  /** `weather_at_coords(latitude, longitude)`. */
  function WeatherAtCoords<V>(w: Wrapper, store: Store<V>, latitude: real, longitude: real, env: Environment<V>)
    : (r: (Fetched<V>, Store<V>))
    ensures r.0.Fresh? ==> GetOwmClient(w, env.clientBuilds).Some? && env.service.weatherAt(GetOwmClient(w, env.clientBuilds).value, latitude, longitude) == Success(r.0.value)
    ensures forall p :: p in store && p != w.weatherCache.cacheFile ==> p in r.1 && r.1[p] == store[p]
    ensures forall p :: p in r.1 && p != w.weatherCache.cacheFile ==> p in store
  {
    var client := GetOwmClient(w, env.clientBuilds);
    FetchWithFallback(store, w.weatherCache, CallOn(client, c => env.service.weatherAt(c, latitude, longitude)), env.write)
  }

  /** `daily_forecast_at_coords(latitude, longitude, limit)`: the service is
      always asked with `limit=None`, whatever `limit` the caller passed. */
  function DailyForecastAtCoords<V>(w: Wrapper, store: Store<V>, latitude: real, longitude: real, limit: Option<int>, env: Environment<V>)
    : (r: (Fetched<V>, Store<V>))
    ensures r.0.Fresh? ==> GetOwmClient(w, env.clientBuilds).Some? && env.service.dailyAt(GetOwmClient(w, env.clientBuilds).value, latitude, longitude, None) == Success(r.0.value)
    ensures forall p :: p in store && p != w.dailyCache.cacheFile ==> p in r.1 && r.1[p] == store[p]
    ensures forall p :: p in r.1 && p != w.dailyCache.cacheFile ==> p in store
  {
    var client := GetOwmClient(w, env.clientBuilds);
    FetchWithFallback(store, w.dailyCache, CallOn(client, c => env.service.dailyAt(c, latitude, longitude, None)), env.write)
  }

  /** `three_hours_forecast_at_coords(latitude, longitude)`. */
  function ThreeHoursForecastAtCoords<V>(w: Wrapper, store: Store<V>, latitude: real, longitude: real, env: Environment<V>)
    : (r: (Fetched<V>, Store<V>))
    ensures r.0.Fresh? ==> GetOwmClient(w, env.clientBuilds).Some? && env.service.threeHoursAt(GetOwmClient(w, env.clientBuilds).value, latitude, longitude) == Success(r.0.value)
    ensures forall p :: p in store && p != w.threeHoursCache.cacheFile ==> p in r.1 && r.1[p] == store[p]
    ensures forall p :: p in r.1 && p != w.threeHoursCache.cacheFile ==> p in store
  {
    var client := GetOwmClient(w, env.clientBuilds);
    FetchWithFallback(store, w.threeHoursCache, CallOn(client, c => env.service.threeHoursAt(c, latitude, longitude)), env.write)
  }

  // ---------------------------------------------------------------------
  // The fallback policy

  /** A reply that is stored successfully is returned and is what the slot
      now reads. */
  lemma FreshIsPersisted<V>(store: Store<V>, slot: Cache, v: V)
    ensures var r := FetchWithFallback(store, slot, Success(v), Written);
      r.0 == Fresh(v) && r.0.Returned() == Some(v) && Get(r.1, slot) == Some(v)
  {
  }

  /** A reply whose pickling fails is still returned, but the slot it leaves
      behind exists and reads as `None`. */
  lemma FreshButSlotCorrupted<V>(store: Store<V>, slot: Cache, v: V)
    ensures var r := FetchWithFallback(store, slot, Success(v), DumpFails);
      r.0 == Fresh(v) && Exists(r.1, slot) && Get(r.1, slot) == None
  {
  }

  /** A reply that arrives while the slot file cannot be opened is lost:
      the method falls back exactly as if the service had failed. */
  lemma UnopenableSlotDiscardsReply<V>(store: Store<V>, slot: Cache, v: V, e: Exception)
    ensures FetchWithFallback(store, slot, Success(v), OpenFails) == FetchWithFallback(store, slot, Failure(e), Written)
  {
  }

  /** A reply whose flush fails on close is lost together with the cached
      value: the truncated slot exists, so the fallback serves `None`. */
  lemma FailedCloseLosesCachedValue<V>(store: Store<V>, slot: Cache, v0: V, v1: V)
    requires Get(store, slot) == Some(v0)
    ensures var r := FetchWithFallback(store, slot, Success(v1), CloseFails);
      r.0 == Stale(None) && r.0.Returned() == None && r.1 == store[slot.cacheFile := Corrupt]
  {
  }

  /** With a slot holding `v0`, a failing call returns `v0` and leaves the
      store as it was. */
  lemma FailureServesCachedValue<V>(store: Store<V>, slot: Cache, v0: V, e: Exception, write: WriteOutcome)
    requires Get(store, slot) == Some(v0)
    ensures FetchWithFallback(store, slot, Failure(e), write) == (Stale(Some(v0)), store)
  {
  }

  /** With no slot file, a failing call returns `None` and creates no file. */
  lemma ColdStartUnavailable<V>(store: Store<V>, slot: Cache, e: Exception, write: WriteOutcome)
    requires !Exists(store, slot)
    ensures var r := FetchWithFallback(store, slot, Failure(e), write);
      r.0 == Unavailable && r.0.Returned() == None && !Exists(r.1, slot)
  {
  }

  /** A corrupt slot is served as a stale `None`: `exists()` holds, `get()`
      swallows the unpickling error, and nothing is raised. */
  lemma CorruptSlotServesNone<V>(store: Store<V>, slot: Cache, e: Exception, write: WriteOutcome)
    requires slot.cacheFile in store && store[slot.cacheFile] == Corrupt
    ensures FetchWithFallback(store, slot, Failure(e), write) == (Stale(None), store)
  {
  }

  /** A successful call followed by a failing one serves the first reply. */
  lemma SuccessThenFailure<V>(store: Store<V>, slot: Cache, v: V, e: Exception, write: WriteOutcome)
    ensures var s1 := FetchWithFallback(store, slot, Success(v), Written).1;
      FetchWithFallback(s1, slot, Failure(e), write).0 == Stale(Some(v))
  {
  }

  /** Two successful calls leave exactly the second reply in the slot. */
  lemma SecondSuccessOverwrites<V>(store: Store<V>, slot: Cache, v1: V, v2: V)
    ensures var s1 := FetchWithFallback(store, slot, Success(v1), Written).1;
      Get(FetchWithFallback(s1, slot, Success(v2), Written).1, slot) == Some(v2)
  {
  }

  // ---------------------------------------------------------------------
  // The wrapper

  /** `self.owm` stays `None`, so every call builds a fresh client from the
      API key, and a construction failure yields `None`. */
  lemma EveryCallBuildsClient(cls: CacheClass, apiKey: string, builds: bool)
    requires cls.cachePath.Some?
    ensures GetOwmClient(NewWrapper(cls, apiKey).value, builds) == if builds then Some(Client(apiKey)) else None
  {
  }

  /** When the client cannot be built no service call is made: the call
      falls back on the slot, whatever the service would have answered, and
      the store is unchanged. */
  lemma ClientFailureFallsBack<V>(w: Wrapper, store: Store<V>, latitude: real, longitude: real, service: Service<V>, write: WriteOutcome)
    requires w.owm.None?
    ensures var r := WeatherAtCoords(w, store, latitude, longitude, Environment(false, service, write));
      r.1 == store
      && (Exists(store, w.weatherCache) ==> r.0 == Stale(Get(store, w.weatherCache)))
      && (!Exists(store, w.weatherCache) ==> r.0 == Unavailable)
  {
  }

  /** The three slots of a wrapper are three different files. */
  lemma SlotsDistinct(cls: CacheClass, apiKey: string)
    requires cls.cachePath.Some?
    ensures var w := NewWrapper(cls, apiKey).value;
      && w.weatherCache.cacheFile != w.dailyCache.cacheFile
      && w.weatherCache.cacheFile != w.threeHoursCache.cacheFile
      && w.dailyCache.cacheFile != w.threeHoursCache.cacheFile
  {
    var root := cls.cachePath.value;
    assert WeatherSlot[21] != DailySlot[21];
    assert WeatherSlot[21] != ThreeHoursSlot[21];
    assert DailySlot[21] != ThreeHoursSlot[21];
    JoinPathInjective(root, WeatherSlot, DailySlot);
    JoinPathInjective(root, WeatherSlot, ThreeHoursSlot);
    JoinPathInjective(root, DailySlot, ThreeHoursSlot);
  }

  /** Each method writes only its own slot: a weather call leaves what the
      two forecast slots read unchanged. */
  lemma WeatherCallLeavesForecastSlots<V>(cls: CacheClass, apiKey: string, store: Store<V>, latitude: real, longitude: real, env: Environment<V>)
    requires cls.cachePath.Some?
    ensures var w := NewWrapper(cls, apiKey).value;
      var s' := WeatherAtCoords(w, store, latitude, longitude, env).1;
      && Get(s', w.dailyCache) == Get(store, w.dailyCache)
      && Get(s', w.threeHoursCache) == Get(store, w.threeHoursCache)
  {
    SlotsDistinct(cls, apiKey);
  }

  /** The `limit` argument of `daily_forecast_at_coords` has no effect. */
  lemma DailyLimitIgnored<V>(w: Wrapper, store: Store<V>, latitude: real, longitude: real, l1: Option<int>, l2: Option<int>, env: Environment<V>)
    ensures DailyForecastAtCoords(w, store, latitude, longitude, l1, env)
         == DailyForecastAtCoords(w, store, latitude, longitude, l2, env)
  {
  }
}
