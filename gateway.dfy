/** The four cache-first gateways of weather_app.py: look in the cache,
    return a fresh hit, otherwise fetch, save what was fetched and return
    it. The fetch is the parameter `fetched`: what `make_api_request`
    returned or raised for the gateway's URL. Each gateway is specified by
    a function from the directory before the call to its result and the
    directory after it. */
module Gateway {
  import opened Wrappers
  import opened Text
  import opened Json
  import opened Coordinates
  import opened Cache
  import opened Api

  /** What a gateway raises. */
  datatype Failure =
    | Remote(e: ApiError)        // raised by `make_api_request`
    | Payload(f: Fault)          // a payload of an unexpected shape
    | CityNotFound(city: string) // `Exception(f"Город {city} не найден")`

  /** A gateway's result together with the cache directory it leaves. */
  datatype Outcome<T> = Outcome(result: Result<T, Failure>, files: map<string, CacheFile>)

  function Lift<T>(r: Result<T, Fault>): (l: Result<T, Failure>)
    ensures l.Ok? <==> r.Ok?
    ensures r.Ok? ==> l.value == r.value
  {
    match r
    case Ok(v) => Ok(v)
    case Err(f) => Err(Payload(f))
  }

  // ---------------------------------------------------------------------
  // get_weather_by_coordinates
  // ---------------------------------------------------------------------

  /** `if city_name: data['_local_name'] = city_name`. */
  function Overlay(data: Json, cityName: Option<string>): Result<Json, Failure> {
    if cityName.Some? && cityName.value != "" then Lift(SetField(data, "_local_name", Str(cityName.value)))
    else Ok(data)
  }

  function Weather(files: map<string, CacheFile>, lat: real, lon: real, cityName: Option<string>,
                   now: real, fetched: Result<Json, ApiError>): Outcome<Json>
  {
    var path := PathOf(lat, lon, "weather");
    var cached := Read(files, path, now);
    var files1 := AfterRead(files, path, now);
    if Truthy(cached) then Outcome(Overlay(cached, cityName), files1)
    else match fetched
      case Err(e) => Outcome(Err(Remote(e)), files1)
      case Ok(data) =>
        match Overlay(data, cityName)
        case Err(f) => Outcome(Err(f), files1)
        case Ok(d) => Outcome(Ok(d), Saved(files1, lat, lon, "weather", d, now))
  }

  method GetWeatherByCoordinates(store: CacheDir, lat: real, lon: real, cityName: Option<string>,
                                 now: real, fetched: Result<Json, ApiError>) returns (r: Result<Json, Failure>)
    modifies store
    ensures r == Weather(old(store.files), lat, lon, cityName, now, fetched).result
    ensures store.files == Weather(old(store.files), lat, lon, cityName, now, fetched).files
  {
    var cached := store.GetCachedData(lat, lon, "weather", now);
    if Truthy(cached) {
      return Overlay(cached, cityName);
    }
    if fetched.Err? {
      return Err(Remote(fetched.error));
    }
    r := Overlay(fetched.value, cityName);
    if r.Ok? {
      store.SaveCachedData(lat, lon, "weather", r.value, now);
    }
  }

  /** A hit writes nothing: the name is laid over the returned copy only,
      and the record keeps the data it had. */
  lemma WeatherHit(files: map<string, CacheFile>, lat: real, lon: real, cityName: Option<string>,
                   now: real, fetched: Result<Json, ApiError>)
    requires Truthy(Read(files, PathOf(lat, lon, "weather"), now))
    ensures Weather(files, lat, lon, cityName, now, fetched)
         == Outcome(Overlay(Read(files, PathOf(lat, lon, "weather"), now), cityName), files)
  {
  }

  /** A miss stores the response with the name already laid over it, so a
      later call from the same cell within the time to live returns that
      dict, name included, without fetching and without writing. */
  lemma {:induction false} WeatherFillThenHit(files: map<string, CacheFile>, lat: real, lon: real, name: string,
                                             now: real, data: Json, lat': real, lon': real, now': real,
                                             cityName': Option<string>, fetched': Result<Json, ApiError>)
    requires !Truthy(Read(files, PathOf(lat, lon, "weather"), now))
    requires data.Obj? && UniqueKeys(data.fields) && name != ""
    requires Normalize(lat', lon') == Normalize(lat, lon)
    requires now <= now' < now + MaxAgeSeconds
    ensures var first := Weather(files, lat, lon, Some(name), now, Ok(data));
            first.result.Ok?
            && Field(first.result.value, "_local_name") == Ok(Str(name))
            && first.files == Saved(AfterRead(files, PathOf(lat, lon, "weather"), now), lat, lon, "weather", first.result.value, now)
            && Weather(first.files, lat', lon', cityName', now', fetched')
               == Outcome(Overlay(first.result.value, cityName'), first.files)
  {
    SetFieldReads(data, "_local_name", Str(name));
    var d := SetField(data, "_local_name", Str(name)).value;
    var files1 := AfterRead(files, PathOf(lat, lon, "weather"), now);
    SaveThenGet(files1, lat, lon, lat', lon', "weather", d, now, now');
  }

  // ---------------------------------------------------------------------
  // get_coordinates
  // ---------------------------------------------------------------------

  /** `city.lower().strip()`. */
  function CityKey(city: string): string { Strip(Lower(city)) }

  /** The endpoint a city's geocoding entry is filed under, at (0, 0). */
  function GeoEndpoint(city: string): string { "geocoding_" + CityKey(city) }

  /** The record saved for a resolved city. */
  function GeoRecord(t: (Json, Json, Json)): Json {
    Obj([("lat", t.0), ("lon", t.1), ("city_name", t.2)])
  }

  /** `cached['lat'], cached['lon'], cached['city_name']`. */
  function GeoFromRecord(cached: Json): Result<(Json, Json, Json), Fault> {
    var lat :- Field(cached, "lat");
    var lon :- Field(cached, "lon");
    var name :- Field(cached, "city_name");
    Ok((lat, lon, name))
  }

  /** The first match of a geocoding answer: its `local_names.ru`, else its
      `name` (looked up in either case), then `lat` and `lon`. */
  function GeoFromAnswer(data: Json): Result<(Json, Json, Json), Fault> {
    var first :- Item(data, 0);
    var localNames :- FieldOr(first, "local_names", Obj([]));
    if !localNames.Obj? then Err(TypeError)
    else
      var name :- Field(first, "name");
      var cityName :- FieldOr(localNames, "ru", name);
      var lat :- Field(first, "lat");
      var lon :- Field(first, "lon");
      Ok((lat, lon, cityName))
  }

  function Geocode(files: map<string, CacheFile>, city: string, now: real,
                   fetched: Result<Json, ApiError>): Outcome<(Json, Json, Json)>
  {
    var path := PathOf(0.0, 0.0, GeoEndpoint(city));
    var cached := Read(files, path, now);
    var files1 := AfterRead(files, path, now);
    if Truthy(cached) then Outcome(Lift(GeoFromRecord(cached)), files1)
    else match fetched
      case Err(e) => Outcome(Err(Remote(e)), files1)
      case Ok(data) =>
        if !Truthy(data) then Outcome(Err(CityNotFound(city)), files1)
        else match GeoFromAnswer(data)
          case Err(f) => Outcome(Err(Payload(f)), files1)
          case Ok(t) => Outcome(Ok(t), Saved(files1, 0.0, 0.0, GeoEndpoint(city), GeoRecord(t), now))
  }

  method GetCoordinates(store: CacheDir, city: string, now: real, fetched: Result<Json, ApiError>)
    returns (r: Result<(Json, Json, Json), Failure>)
    modifies store
    ensures r == Geocode(old(store.files), city, now, fetched).result
    ensures store.files == Geocode(old(store.files), city, now, fetched).files
  {
    var key := Strip(Lower(city));
    var cached := store.GetCachedData(0.0, 0.0, "geocoding_" + key, now);
    if Truthy(cached) {
      return Lift(GeoFromRecord(cached));
    }
    if fetched.Err? {
      return Err(Remote(fetched.error));
    }
    var data := fetched.value;
    if !Truthy(data) {
      return Err(CityNotFound(city));
    }
    var t := GeoFromAnswer(data);
    if t.Err? {
      return Err(Payload(t.error));
    }
    store.SaveCachedData(0.0, 0.0, "geocoding_" + key, GeoRecord(t.value), now);
    r := Ok(t.value);
  }

  /** A resolved city is remembered: for the time to live, any spelling
      that lowers and strips to the same text gets the same triple back
      from the cache, without a fetch and without a write. */
  lemma {:induction false} GeocodeFillThenHit(files: map<string, CacheFile>, city: string, now: real,
                                             fetched: Result<Json, ApiError>, city': string, now': real,
                                             fetched': Result<Json, ApiError>)
    requires !Truthy(Read(files, PathOf(0.0, 0.0, GeoEndpoint(city)), now))
    requires Geocode(files, city, now, fetched).result.Ok?
    requires CityKey(city') == CityKey(city)
    requires now <= now' < now + MaxAgeSeconds
    ensures var first := Geocode(files, city, now, fetched);
            Geocode(first.files, city', now', fetched') == first
  {
    var path := PathOf(0.0, 0.0, GeoEndpoint(city));
    var first := Geocode(files, city, now, fetched);
    var t := first.result.value;
    var files1 := AfterRead(files, path, now);
    assert fetched.Ok? && GeoFromAnswer(fetched.value) == Ok(t);
    assert first.files == Saved(files1, 0.0, 0.0, GeoEndpoint(city), GeoRecord(t), now);
    assert GeoEndpoint(city') == GeoEndpoint(city);
    SaveThenGet(files1, 0.0, 0.0, 0.0, 0.0, GeoEndpoint(city), GeoRecord(t), now, now');
    assert Read(first.files, path, now') == GeoRecord(t);
    assert AfterRead(first.files, path, now') == first.files;
    GeoRecordReads(t);
  }

  /** The saved record reads back as the triple it was made from. */
  lemma GeoRecordReads(t: (Json, Json, Json))
    ensures GeoFromRecord(GeoRecord(t)) == Ok(t)
  {
    var rec := GeoRecord(t).fields;
    assert "lat" != "lon" by { assert "lat"[1] != "lon"[1]; }
    assert rec[1..][1..] == [("city_name", t.2)];
    assert Lookup(rec[1..], "lon") == Some(t.1);
    assert Lookup(rec[1..][1..], "city_name") == Some(t.2);
    assert Field(GeoRecord(t), "lat") == Ok(t.0);
    assert Field(GeoRecord(t), "lon") == Ok(t.1);
    assert Lookup(rec[1..], "city_name") == Some(t.2);
    assert Lookup(rec, "city_name") == Some(t.2);
    assert Field(GeoRecord(t), "city_name") == Ok(t.2);
  }

  /** The name is the Russian local name when the answer has one and the
      English name otherwise; an answer without `name` fails even when it
      has a Russian name. */
  lemma GeoNameChoice(lat: Json, lon: Json, name: Json, ru: Json)
    ensures GeoFromAnswer(Arr([Obj([("name", name), ("lat", lat), ("lon", lon)])])) == Ok((lat, lon, name))
    ensures GeoFromAnswer(Arr([Obj([("name", name), ("local_names", Obj([("ru", ru)])), ("lat", lat), ("lon", lon)])]))
         == Ok((lat, lon, ru))
    ensures GeoFromAnswer(Arr([Obj([("local_names", Obj([("ru", ru)])), ("lat", lat), ("lon", lon)])]))
         == Err(KeyError("name"))
  {
    var ls := Obj([("ru", ru)]);
    var plain := [("name", name), ("lat", lat), ("lon", lon)];
    assert "lat" != "lon" by { assert "lat"[1] != "lon"[1]; }
    assert plain[1..][1..] == [("lon", lon)];
    assert Lookup(plain[1..][1..], "local_names") == None;
    assert Lookup(plain, "local_names") == None;
    assert Lookup(plain, "name") == Some(name);
    assert Lookup(plain, "lat") == Some(lat);
    assert Lookup(plain[1..], "lon") == Some(lon);
    var full := [("name", name), ("local_names", ls), ("lat", lat), ("lon", lon)];
    assert Lookup(full, "local_names") == Some(ls);
    assert Lookup(full, "name") == Some(name);
    assert Lookup(full, "lat") == Some(lat);
    assert full[1..][1..] == [("lat", lat), ("lon", lon)];
    assert Lookup(full[1..][1..], "lon") == Some(lon);
    assert Lookup(ls.fields, "ru") == Some(ru);
    assert FieldOr(Obj(full), "local_names", Obj([])) == Ok(ls);
    assert FieldOr(ls, "ru", name) == Ok(ru);
    assert Field(Obj(full), "lat") == Ok(lat);
    assert Lookup(full[1..], "lon") == Some(lon);
    assert Lookup(full, "lon") == Some(lon);
    assert Field(Obj(full), "lon") == Ok(lon);
    var bare := [("local_names", ls), ("lat", lat), ("lon", lon)];
    assert Lookup(bare, "local_names") == Some(ls);
    assert bare[1..][1..] == [("lon", lon)];
    assert Lookup(bare[1..][1..], "name") == None;
    assert Lookup(bare[1..], "lat") == Some(lat);
    assert Lookup(bare, "name") == None;
  }

  // ---------------------------------------------------------------------
  // get_hourly_weather
  // ---------------------------------------------------------------------

  function Hourly(files: map<string, CacheFile>, lat: real, lon: real, now: real,
                  fetched: Result<Json, ApiError>): Outcome<Json>
  {
    var path := PathOf(lat, lon, "forecast");
    var cached := Read(files, path, now);
    var files1 := AfterRead(files, path, now);
    if Truthy(cached) then Outcome(Ok(cached), files1)
    else match fetched
      case Err(e) => Outcome(Err(Remote(e)), files1)
      case Ok(data) => Outcome(Ok(data), Saved(files1, lat, lon, "forecast", data, now))
  }

  method GetHourlyWeather(store: CacheDir, lat: real, lon: real, now: real, fetched: Result<Json, ApiError>)
    returns (r: Result<Json, Failure>)
    modifies store
    ensures r == Hourly(old(store.files), lat, lon, now, fetched).result
    ensures store.files == Hourly(old(store.files), lat, lon, now, fetched).files
  {
    var cached := store.GetCachedData(lat, lon, "forecast", now);
    if Truthy(cached) {
      return Ok(cached);
    }
    if fetched.Err? {
      return Err(Remote(fetched.error));
    }
    store.SaveCachedData(lat, lon, "forecast", fetched.value, now);
    r := Ok(fetched.value);
  }

  /** A fetched forecast is served from the cache to every point of the
      cell for the time to live. */
  lemma {:induction false} HourlyFillThenHit(files: map<string, CacheFile>, lat: real, lon: real, now: real,
                                            data: Json, lat': real, lon': real, now': real,
                                            fetched': Result<Json, ApiError>)
    requires !Truthy(Read(files, PathOf(lat, lon, "forecast"), now)) && Truthy(data)
    requires Normalize(lat', lon') == Normalize(lat, lon)
    requires now <= now' < now + MaxAgeSeconds
    ensures var first := Hourly(files, lat, lon, now, Ok(data));
            first.result == Ok(data) && Hourly(first.files, lat', lon', now', fetched') == first
  {
    var files1 := AfterRead(files, PathOf(lat, lon, "forecast"), now);
    SaveThenGet(files1, lat, lon, lat', lon', "forecast", data, now, now');
  }

  // ---------------------------------------------------------------------
  // get_air_pollution
  // ---------------------------------------------------------------------

  /** `data['list'][0].get('components', {})`. */
  function Components(data: Json): Result<Json, Fault> {
    var list :- Field(data, "list");
    var first :- Item(list, 0);
    FieldOr(first, "components", Obj([]))
  }

  function AirPollution(files: map<string, CacheFile>, lat: real, lon: real, now: real,
                        fetched: Result<Json, ApiError>): Outcome<Json>
  {
    var path := PathOf(lat, lon, "air_pollution");
    var cached := Read(files, path, now);
    var files1 := AfterRead(files, path, now);
    if Truthy(cached) then Outcome(Lift(Components(cached)), files1)
    else match fetched
      case Err(e) => Outcome(Err(Remote(e)), files1)
      case Ok(data) => Outcome(Lift(Components(data)), Saved(files1, lat, lon, "air_pollution", data, now))
  }

  method GetAirPollution(store: CacheDir, lat: real, lon: real, now: real, fetched: Result<Json, ApiError>)
    returns (r: Result<Json, Failure>)
    modifies store
    ensures r == AirPollution(old(store.files), lat, lon, now, fetched).result
    ensures store.files == AirPollution(old(store.files), lat, lon, now, fetched).files
  {
    var cached := store.GetCachedData(lat, lon, "air_pollution", now);
    if Truthy(cached) {
      return Lift(Components(cached));
    }
    if fetched.Err? {
      return Err(Remote(fetched.error));
    }
    store.SaveCachedData(lat, lon, "air_pollution", fetched.value, now);
    r := Lift(Components(fetched.value));
  }

  /** The whole response envelope is cached, even when extracting the
      components from it fails; a later call within the time to live
      extracts the components again from the cached envelope and so
      returns what the first call returned. */
  lemma {:induction false} AirPollutionFillThenHit(files: map<string, CacheFile>, lat: real, lon: real, now: real,
                                                  data: Json, lat': real, lon': real, now': real,
                                                  fetched': Result<Json, ApiError>)
    requires !Truthy(Read(files, PathOf(lat, lon, "air_pollution"), now)) && Truthy(data)
    requires Normalize(lat', lon') == Normalize(lat, lon)
    requires now <= now' < now + MaxAgeSeconds
    ensures var first := AirPollution(files, lat, lon, now, Ok(data));
            Read(first.files, PathOf(lat', lon', "air_pollution"), now') == data
            && AirPollution(first.files, lat', lon', now', fetched') == first
  {
    var files1 := AfterRead(files, PathOf(lat, lon, "air_pollution"), now);
    SaveThenGet(files1, lat, lon, lat', lon', "air_pollution", data, now, now');
  }
}
