# Weather bot core in Dafny

The system is a Telegram weather bot built on the OpenWeatherMap API. This
project models its core and proves properties about that model:

- **The geo-keyed API cache** (`storage.py`).
  - Coordinates are rounded to hundredths of a degree, so nearby points share one grid cell.
  - Each (cell, endpoint) pair has one JSON record under `.cache/`.
  - A record older than 600 seconds is deleted the next time it is read.
  - `cleanup_old_cache` sweeps out expired and unparseable files.
  - `clear_user_cache` evicts the three coordinate endpoints of a cell the user has left.
- **The per-user JSON store** (`storage.py`): `load_user`, `save_user`, `load_all_users`.
- **The HTTP layer** (`weather_app.py`):
  - `make_api_request` retries with backoff delays of 1, 2 and 4 seconds.
  - `check_status_code` maps each status to its error.
- **The four cache-first gateways**: current weather, geocoding, hourly forecast and air pollution. Each reads the cache first, fetches on a miss and stores the answer.
- **`analyze_air_pollution`**: puts each pollutant into one of five bands and rates the air overall.
- **The bot handlers** (`bot.py`):
  - the user-location update, including its cache eviction;
  - forecast parsing, which groups items by day;
  - the callback-data codec, where keyboards carry `prefix|lat|lon`;
  - the coordinate and interval input validators;
  - the notification handlers: toggle, interval, city, the scheduled send and the job scheduler.

Modelling choices:

- **Time, network and calendar are parameters.**
  - The clock is a `now: real` parameter.
  - The network's answers are parameters: `answer` is the sequence of attempts, `fetched` is one fetch's outcome.
  - The timezone calendar is passed in as `dayOf`/`dateLabel`.
- **Values:**
  - JSON is a datatype whose objects keep their field order.
  - Coordinates are exact `real`s. A grid cell is a pair of integers counting hundredths.
- **Files:**
  - The cache directory is a `map` from file name to file.
  - The user file is either stored, missing or unparseable.
- **State-changing code is imperative Dafny:**
  - The cache, the user store and the bot's in-memory state (`user_data` plus the scheduler's jobs) are classes.
  - Each method is proved equal to a specification function. The properties are proved about those functions as lemmas.
  - `Bot.Bot.Valid()` holds between handlers. It says that memory and the user file agree:
    - every user in the file is in memory;
    - every user in memory is what the file holds, except a user that `/start` or the notifications menu created as `{'location': None}` and that no handler has saved yet.
  - Every handler also keeps users consistent: notifications are on only with a place to report on, and the interval is positive.

Where the code and the design description of the system differ, the model
follows the code:

- `get_weather_by_coordinates` writes the display-name overlay (`_local_name`) into the cached record on a miss (weather_app.py:71-75). The description says only the returned copy gets it.
- `get_air_pollution` caches the whole response envelope, not just the extracted components (weather_app.py:143).
- `save_cached_data` and `save_user` overwrite the file in place; they do not write a temporary file and replace it atomically (storage.py:55-56, storage.py:173-174).

## Model

| member | source | states |
|---|---|---|
| Coordinates.Round2 | storage.py:93 | `round(x, 2)` yields a hundredth within half a hundredth of `x` |
| Coordinates.Round2Nearest | storage.py:93 | no other hundredth is closer to `x` than the one chosen |
| Coordinates.Round2Within | storage.py:93 | a value strictly within half a hundredth of `m` rounds to `m` |
| Coordinates.Round2OfCell | storage.py:93 | a grid value rounds to itself, so normalising is idempotent |
| Coordinates.Round2Ties | storage.py:93 | exact ties go to the even hundredth (Python's banker's rounding) |
| Coordinates.Normalize | storage.py:73-93 | each normalised coordinate lies within half a hundredth of the raw one |
| Coordinates.NormalizeExamples | storage.py:73-93 | the two documented Moscow points share the cell (55.75, 37.62) |
| Coordinates.FormatHundredths | storage.py:109 | the `:.2f` text of a cell value holds neither `_` nor `\|` |
| Coordinates.UnsignedHundredthsParses | storage.py:109 | the unsigned `:.2f` text reads back as the value and starts with a digit |
| Coordinates.FormatHundredthsParses | storage.py:109 | the `:.2f` text of any cell value reads back, as a decimal, as that value |
| Coordinates.FormatHundredthsShape | storage.py:109 | the `:.2f` text is an optional minus, digits, a point and two digits |
| Coordinates.FormatHundredthsInjective | storage.py:109 | distinct cell values never share their `:.2f` text |
| Coordinates.KeyStringInjective | storage.py:95-111 | two key strings are equal if and only if their cells and endpoints are |
| Coordinates.SameKeyIffSameCell | storage.py:95-111 | two raw points get the same key for an endpoint if and only if they normalise to the same cell |
| Coordinates.GeocodingIsolated | storage.py:95-111 | a geocoding entry at (0, 0) never collides with a weather, forecast or air-pollution key |
| Cache.CacheDir.constructor | storage.py:113-115 | the cache directory starts as the files given |
| Cache.CacheDir.GetCachedData | storage.py:117-147 | the result is the record's data when the record is fresh, and `None` otherwise; an expired record is deleted and nothing else changes |
| Cache.CacheDir.SaveCachedData | storage.py:149-174 | the record for the (cell, endpoint) pair is overwritten with the data and the time; every other file is kept |
| Cache.CacheDir.ClearUserCache | storage.py:176-194 | exactly the weather, forecast and air-pollution files of the old cell are removed |
| Cache.CacheDir.CleanupOldCache | storage.py:196-230 | the directory becomes the swept one, and the count returned is the number of doomed files |
| Cache.PathOfInjective | storage.py:95-115 | two (point, endpoint) pairs share a file if and only if their cells and endpoints are equal |
| Cache.SaveThenGet | storage.py:117-174 | a save is read back from any point of the same cell within 600 seconds, and that read deletes nothing |
| Cache.SaveLeavesOthers | storage.py:149-174 | a save leaves the reads of every other (cell, endpoint) pair unchanged |
| Cache.ReadOutcomes | storage.py:117-147 | the three outcomes of a read: expired is deleted and `None`; fresh gives its data and keeps the file; absent or corrupt is `None` and changes nothing |
| Cache.ClearEvictsExactly | storage.py:176-194 | the three endpoints of the old cell are gone; every other file, geocoding entries and other cells included, is untouched |
| Cache.SweepProperties | storage.py:196-230 | the sweep deletes exactly the expired or unparseable `.json` files and changes no read at the same instant; it leaves nothing doomed and is idempotent |
| Cache.SweptHasNothingExpired | storage.py:117-147 | straight after a sweep, a read at the same instant deletes nothing |
| Users.UserFileStore.constructor | storage.py:17-34 | the store starts as the file given |
| Users.UserFileStore.LoadUser | storage.py:17-34 | the user's dict, or `None` when the user or the readable file is missing |
| Users.UserFileStore.SaveUser | storage.py:36-56 | the file becomes the previous contents, or `{}` if unreadable, with the user's key set |
| Users.UserFileStore.LoadAllUsers | storage.py:58-69 | the whole map, or `{}` when the file is missing or unparseable |
| Users.SaveThenLoad | storage.py:17-56 | a saved user reads back as saved, and every other user reads as before |
| Users.UnreadableFile | storage.py:17-69 | an unreadable file reads as nobody, and saving into it keeps only the saved user |
| Api.CheckStatusCode | weather_app.py:278-286 | no error if and only if the status is 200; otherwise a bad-request, authorisation or generic HTTP error |
| Api.StatusMessages | weather_app.py:278-286 | 400 and 401 carry their fixed texts; any other status is named in its message, from which it can be read back |
| Api.MakeApiRequest | weather_app.py:14-44 | the delays are a prefix of 1, 2, 4, each one following a retryable answer; four retryable answers raise a connection error; otherwise the settled answer's status and emptiness checks decide; success means a 200 with non-empty data |
| Gateway.Lift | weather_app.py:57-145 | a payload error is raised as a gateway failure, and a value passes through unchanged |
| Gateway.GetWeatherByCoordinates | weather_app.py:57-77 | the result and the new cache are those of the cache-first current-weather specification |
| Gateway.WeatherHit | weather_app.py:59-64 | a cache hit writes nothing, fetches nothing and lays the name over the returned copy only |
| Gateway.WeatherFillThenHit | weather_app.py:57-77 | a miss stores the response with the name laid over it; any point of the cell then gets that dict back within 600 seconds, with no fetch and no write |
| Gateway.GetCoordinates | weather_app.py:79-115 | the result and the new cache are those of the cache-first geocoding specification |
| Gateway.GeocodeFillThenHit | weather_app.py:79-115 | a resolved city is then served from the cache, for any spelling with the same lower-cased, stripped key, within 600 seconds |
| Gateway.GeoRecordReads | weather_app.py:94-113 | the saved geocoding record reads back as the (lat, lon, name) triple |
| Gateway.GeoNameChoice | weather_app.py:107-109 | the name is the Russian local name when the answer has one, and the plain name otherwise |
| Gateway.GetHourlyWeather | weather_app.py:117-130 | the result and the new cache are those of the cache-first forecast specification |
| Gateway.HourlyFillThenHit | weather_app.py:117-130 | a fetched forecast is served from the cache to every point of the cell for 600 seconds |
| Gateway.GetAirPollution | weather_app.py:132-145 | the result and the new cache are those of the cache-first air-pollution specification |
| Gateway.AirPollutionFillThenHit | weather_app.py:132-145 | the whole envelope is cached, and a repeat within 600 seconds from the same cell returns what the first call returned |
| AirQuality.Bounds | weather_app.py:159-215 | exactly the six tracked pollutants have five band limits |
| AirQuality.Upper | weather_app.py:248 | the fallback name `pollutant.upper()` keeps its length, turns each lower-case ASCII letter into its capital and keeps every other character |
| AirQuality.FirstBand | weather_app.py:218-225 | the first band from `i` on holding the value, and no earlier band holds it; when there is none, no band holds it |
| AirQuality.BoundsIncreasing | weather_app.py:159-215 | every table starts at 0 and has strictly increasing limits |
| AirQuality.BandsOrdered | weather_app.py:218-225 | bands with increasing limits do not overlap |
| AirQuality.BandExactlyOne | weather_app.py:218-225 | a pollutant gets a band if and only if it is tracked and its value is at least 0; that band holds the value and is the only one that does |
| AirQuality.Indices | weather_app.py:218-225 | indexed pollutants come from the data and have bands 1 to 5 |
| AirQuality.WorstBand | weather_app.py:228-229 | the worst band is at most 5 |
| AirQuality.Details | weather_app.py:244-268 | there is at most one detail per item, each with its band's name and verdict |
| AirQuality.Analyze | weather_app.py:147-274 | the overall index is 1 to 5 with its name; it bounds every detail and is attained by one; there are no details if and only if nothing is indexed and the index is 1 |
| AirQuality.DetailsAgainstWorst | weather_app.py:228-268 | the worst band bounds every detail and is attained by one; there are no details if and only if the worst band is 0, if and only if nothing is indexed |
| AirQuality.DetailsAppend | weather_app.py:244-268 | details keep input order: analysing two runs of items concatenates their details |
| AirQuality.DetailOfItem | weather_app.py:244-268 | one item is described exactly when it is indexed, under its display name |
| AirQuality.VerdictsDistinct | weather_app.py:159-215 | the verdict is "в норме" exactly for band 1; distinct bands have distinct verdicts and names |
| AirQuality.GoodAirIff | weather_app.py:228-229 | the air is rated band 1 if and only if no item reaches band 2 or above |
| AirQuality.WorstAtMostOne | weather_app.py:228-229 | the worst band is at most 1 if and only if every item is unindexed or in band 1 |
| AirQuality.SampleAnalysis | weather_app.py:147-274 | the documented sample rates "Хорошее" with band 1 |
| Forecast.OfDayMembers | bot.py:344-362 | a day's group holds exactly the input items falling on that day |
| Forecast.OfDayNonEmpty | bot.py:344-362 | a day has items if and only if some input item falls on it |
| Forecast.DayOrder | bot.py:348-356 | the dict's keys are distinct |
| Forecast.DayOrderKeys | bot.py:344-362 | the dict holds every day of the items, each once |
| Forecast.Insert | bot.py:366 | inserting into an ascending sequence keeps it ascending and adds exactly the item |
| Forecast.Sort | bot.py:366 | `sorted` gives an ascending sequence with the same members and length |
| Forecast.ShownDaysOrder | bot.py:366 | at most five days are shown, ascending and from the items; no day left out is earlier than one shown |
| Forecast.MinTemp | bot.py:370 | the minimum temperature is one of the items' and no item's is lower |
| Forecast.MaxTemp | bot.py:371 | the maximum temperature is one of the items' and no item's is higher |
| Forecast.MostFrequentOf | bot.py:372 | the chosen description occurs and no description occurs more often |
| Forecast.Summarize | bot.py:366-376 | min is at most max; the humidity is the floored mean and the wind the exact mean; the description is a most frequent one; the date is the first item's |
| Forecast.FloorMean | bot.py:373 | `//` brackets the mean: `q * n <= total < (q + 1) * n` |
| Forecast.Mean | bot.py:374 | the mean times the count gives back the total |
| Forecast.GroupByDay | bot.py:342-362 | the dict built by the loop maps each day of the items to its group, with its keys in first-seen order |
| Forecast.SummarizeDays | bot.py:365-376 | one summary per key, each of that key's group |
| Forecast.ParseForecastData | bot.py:340-378 | the result is the summaries of the earliest five days, each of its own group, in ascending order |
| Forecast.ShownDaysNonEmpty | bot.py:340-378 | every day shown has items, so its summary is defined |
| Forecast.ShownDaysContents | bot.py:340-378 | each day shown holds exactly the input items of that day |
| Callbacks.ForecastKeyboard | bot.py:165-179 | the forecast keyboard has one button per day, plus back and menu |
| Callbacks.DayLabel | bot.py:172 | a day label never contains the separator |
| Callbacks.CallbackCoords | bot.py:522-535 | the coordinates taken from callback data are never empty; data without a separator has none |
| Callbacks.Resolve | bot.py:522-535 | the handler uses the callback's point if and only if the data carries one |
| Callbacks.SplitThree | bot.py:527 | splitting `a\|b\|c` on the separator gives the three parts back |
| Callbacks.CoordsRoundTrip | bot.py:129-206 | a button built with a point gives that point back to the handler |
| Callbacks.NoCoordsRoundTrip | bot.py:129-206 | a button built without a point carries none; the handler falls back to the saved location, or reports not found |
| Callbacks.DayRoundTrip | bot.py:674-681 | a day button names its day, with or without a point attached |
| Callbacks.ForecastButtonRoundTrip | bot.py:165-179 | a forecast button built for a point hands back the point, and its day where it has one |
| Callbacks.KeyboardsRoundTrip | bot.py:129-206 | every button of the actions, back and forecast keyboards built for a point hands that point back |
| Callbacks.ForecastReplyLosesPoint | bot.py:634 | as written, no button under a fetched forecast carries the point, so without a saved location every tap gives "not found" |
| Callbacks.ForecastReplyKeepsPoint | bot.py:634 | with the point passed, every day and back tap reaches the forecast's point, and day buttons keep their day |
| Input.ParseCoordinates | bot.py:792-815 | a point is accepted only within ±90/±180; bad format if and only if the text is not two words once commas are blanks |
| Input.FormattedPointAccepted | bot.py:792-815 | text written as `lat, lon` with two decimals is read back as that point when in range, and rejected as out of range otherwise |
| Input.ParseInterval | bot.py:981-988 | an accepted interval is positive |
| Input.IntervalWithComma | bot.py:982 | a decimal comma is read as a point |
| Bot.SavedStaysSynced | bot.py:77-109 | saving a user's new dict keeps memory and the file in step, a memory-only user included |
| Bot.FirstVisit | bot.py:855-964 | a user new to the notifications menu is refused the switch until a city is set; once set, the switch goes on at the default interval with the first run one interval away |
| Bot.RelocatedStoresCell | bot.py:77-109 | the stored point is the normalised cell, with the city; notification settings and other users are untouched |
| Bot.HundredthsApart | bot.py:98 | two grid values differ by more than 0.01 if and only if they are more than one hundredth apart |
| Bot.StaleIffFar | bot.py:97-99 | the old cell's cache is cleared if and only if the new point is more than one cell away on some axis |
| Bot.RelocateTwiceKeepsCache | bot.py:77-109 | sending the same point again never clears the cache |
| Bot.JobShape | bot.py:1275-1308 | a job exists if and only if notifications are on; it starts in the future, at a positive interval for a consistent user |
| Bot.ScheduleIdempotent | bot.py:1275-1308 | scheduling twice is scheduling once, and other users' jobs are untouched |
| Bot.ToggleOn | bot.py:876-916 | turning on needs a place; when it happens the place is set, the interval is positive and the first run is one interval away |
| Bot.ToggleTwice | bot.py:876-916 | turning off straight after keeps the place and interval and drops the job |
| Bot.IntervalRestartsTimer | bot.py:977-1010 | a rejected text if and only if it does not parse; a new interval is positive and restarts the timer, keeping the switch and the place |
| Bot.RelocateKeepsConsistent | bot.py:77-109 | a location update keeps every user consistent |
| Bot.ToggleKeepsConsistent | bot.py:876-916 | a toggle keeps every user consistent |
| Bot.IntervalKeepsConsistent | bot.py:977-1010 | an interval change keeps every user consistent |
| Bot.CityKeepsConsistent | bot.py:929-964 | a city change keeps every user consistent |
| Bot.NotifyEffects | bot.py:1235-1273 | notifications off means nothing is stored or sent; the user is stored if and only if a run is due and the lookup answered; a send needs the weather fields |
| Bot.Bot.constructor | bot.py:47-56 | the bot starts with the users loaded from the file and no jobs, in the valid state |
| Bot.Bot.InitUser | bot.py:855-863 | an unknown user is created as `{'location': None}` in memory only, nothing is saved, and the result says whether notifications are on |
| Bot.Bot.UpdateUserLocation | bot.py:77-109 | memory and the file get the relocated user; the old cell's cache is cleared exactly when the move is stale; the state stays valid; every user stays consistent |
| Bot.Bot.ScheduleUserNotification | bot.py:1275-1308 | the user's job is replaced by the one their settings call for |
| Bot.Bot.ToggleNotifications | bot.py:876-916 | the outcome is the toggle specification; on a switch, memory, file and job follow it; otherwise nothing changes; every user stays consistent |
| Bot.Bot.SetNotificationInterval | bot.py:977-1010 | the outcome is the interval specification of the parsed text; memory, file and job follow it; every user stays consistent |
| Bot.Bot.StoreInterval | bot.py:986-1010 | the same, once the text has been parsed; every user stays consistent |
| Bot.Bot.SetNotificationCity | bot.py:929-964 | the outcome is the city specification of what geocoding found; memory, file and job follow it; every user stays consistent |
| Bot.Bot.SendWeatherNotification | bot.py:1235-1273 | a run that is not due changes nothing; a due run goes through the cache-first weather lookup and stores the timestamp; nothing is delivered without the weather fields; every user stays consistent |

## Left out

- MD5: `_get_cache_key` hashes the key string. The model files records under the key string itself, and proves the key string injective. A collision of the digest is not modelled.
- Floating point: coordinates, temperatures and intervals are exact reals.
  - Binary rounding artefacts of `round(x, 2)` and of the 0.01 distance test are not modelled.
  - `nan` and `inf` interval texts are not modelled.
  - `float(s)` is modelled for plain decimals only; exponents and similar spellings are read as rejected.
  - The `str(float)` text of coordinates in callback data is taken as given text with no `|`.
- Unicode case mapping: `str.lower` is modelled for Latin and Russian letters only, and `str.upper` for ASCII.
- The value text `мкг/м³` and every other piece of message formatting and HTML are not part of this model. The keyboards are modelled by their callback data only, not their button texts.
- I/O errors (`OSError` on reading, writing or deleting) are not modelled. Concurrent access and atomicity of files are not modelled either. A cache file whose text is not JSON is modelled as `Corrupt`.
- The clock, the network and `time.sleep` are parameters. `MakeApiRequest` returns the list of delays it would sleep.
- Bot.Bot.constructor: the startup load is given as its result, the file's users under their integer ids. A key that `int()` cannot read, which aborts the load half-way, is not modelled. The job-restore loop, the FSM states and the aiogram handler plumbing are not part of this model.
- Bot.Bot.InitUser: `cmd_start` (bot.py:466-472) creates the user the same way as `notifications_menu`, so one method models both. The welcome text and the menu keyboards are not modelled.
- Cache.CacheDir.CleanupOldCache: the sweep reads the clock once and compares every file with that instant. The source calls `time.time()` again for each file (storage.py:214), so a file that reaches 600 seconds during the sweep is deleted by the source and kept by the model.
- Cache.CacheDir.GetCachedData and Cache.CacheDir.CleanupOldCache: only a file that is not JSON is `Corrupt`. Three behaviours of files that are JSON but not a record are not modelled:
  - a JSON value that is not a dict, or a non-numeric `cached_at`, raises out of `get_cached_data`, whose handler catches only `FileNotFoundError`, `JSONDecodeError` and `KeyError` (storage.py:137, 146);
  - the same file raises out of `cleanup_old_cache` and aborts the sweep (storage.py:214, 220, 227);
  - a dict with no `cached_at` counts as written at time 0, so it is expired and deleted on read (storage.py:137-143).
- Coordinates.FormatHundredths and Coordinates.SameKeyIffSameCell: the cell value 0 is always written `0.00`. In the source, `round(-0.004, 2)` is `-0.0`, which `:.2f` writes as `-0.00`. So -0.004 and 0.004 share a cell but get different keys (storage.py:93, 109).
- Text.IsSpace: `str.split()` and `str.strip()` are modelled with ASCII whitespace only. Python also splits on `\x1c`-`\x1f`, `\x85`, `\xa0` and Unicode spaces. So `"55.75\u00a037.62"` is a point in the source but a bad format in `Input.ParseCoordinates` (bot.py:793, 982, 1337; weather_app.py:90).
- Api.MakeApiRequest: every response body is JSON. A 200 response whose body is not JSON makes `response.json()` raise (weather_app.py:41), and that is not modelled.
- Forecast.ParseForecastData: forecast items are typed, so every item has `dt`, `main` and `weather`. An item missing one raises `KeyError` in the source (bot.py:358-361), and that is not modelled.
- The calendar: the local-timezone day and its `%d.%m (%a)` label are the parameters `dayOf` and `dateLabel`.
- Forecast.MostFrequentOf: `max(set(...), key=count)` picks one of the most frequent descriptions in Python's set order. The model states only that the pick is a most frequent one.
- `CACHE_MAX_AGE_HOURS` (weather_app.py:12) is never used, so it is not modelled.
- Exception kinds are collapsed into the `ApiError` and `Failure` datatypes. Their message texts are kept only where the code branches on them.
- Bot.Bot.SetNotificationCity: the geocoding answer is a parameter (`found`). The dialog's call into `get_coordinates` is modelled in the gateway, not repeated here.
- Bot.Bot.SendWeatherNotification: the message text is not modelled; only the fields it reads (`MessageFields`) are.
- The users' dicts are a typed record: the location and the notification settings, and nothing else.
- Users.UserFileStore.LoadUser: returns `None` where the code returns `{}` for an unknown user or a missing or unparseable file, because the typed user record has no empty value.
- Only the `weather`, `forecast` and `air_pollution` endpoints and the geocoding entries go through the cache. Uncached calls such as `get_weather(city)` are not part of this model.

## Findings

| source | as written | input that shows it | evidently intended | confidence | as-written member | corrected member |
|---|---|---|---|---|---|---|
| bot.py:634 | `get_forecast_keyboard(days_data, city_name)` passes the city name where the latitude goes and no longitude, so no day or back button carries coordinates | a user with no saved location opens a forecast from an inline-query result (bot.py:1205) and taps any day or "back": the handler answers "location not found"; a user with a saved location gets the saved location's days instead of the forecast's point. A city typed in chat saves the location first (bot.py:584, 1381), so that path is not affected | `get_forecast_keyboard(days_data, lat, lon)` | high, not executed | Callbacks.ForecastReplyLosesPoint | Callbacks.ForecastReplyKeepsPoint |
