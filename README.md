# Weather dashboard: a verified model of its decision logic

The dashboard has two parts. A Flask server (`app.py`) answers `/api/weather`, `/api/historical`, `/api/search` and `/api/autocomplete` by calling the Open-Meteo services. A browser client (`static/script.js`) keeps a little state, builds the requests and renders the answers. This project models the logic between the network and the page, and proves what that logic promises:

- **`Common`** (`common.dfy`) holds what both sides share:
  - optional values, and results that carry an HTTP status and an error message;
  - the truthiness test both programs apply to coordinates, where a latitude or longitude of exactly 0 counts as missing;
  - the default location (Lahore, 31.525309 / 74.299928);
  - the suggestion record;
  - JavaScript's `Math.round`.
- **`Server`** (`server.dfy`) models the request logic of `app.py`:
  - first-result extraction from a geocoder reply;
  - location resolution in `weather()` and `historical()`, with their error answers in their fixed order;
  - the merge of the past-days hourly columns into the current ones, as a loop over a map;
  - the guard of `search()`;
  - the shaping of up to five autocomplete suggestions, as a loop.
- **`Series`** (`series.dfy`) models the sequence algorithms of the client:
  - the scan for the first hour at or after now, and the window of at most 24 hours after it;
  - the grouping of an hourly series by calendar day;
  - the ascending sort of the days;
  - the per-day average, minimum and maximum;
  - the historical view and its two placeholders;
  - `formatTime`, `getWeatherCondition` and `getWeatherIcon`.
- **`Client`** (`client.dfy`) models the client's orchestration state as a class, `Dashboard`:
  - It holds the variables of `static/script.js:23-28` and the page state the handlers read and write.
  - Each event handler is a method whose `modifies` clause names exactly the fields it may change.
  - A network request or a timer is an event. The handler that starts a request returns the query it sends. The answer arrives later through its own method: `LookupTimerFired`, `LookupResponded`, `WeatherArrived`, `WeatherFailed`, `HistoricalArrived`, `HistoricalRequestFailed`, `PositionArrived`, `StartupPositionFailed`.
  - `Valid()` is kept by every handler. It says:
    - exactly one of the loading indicator and the content is visible;
    - a scheduled lookup is for a query of at least two UTF-16 code units, the unit of JavaScript's `length`;
    - the dropdown is shown only over some results;
    - the unit is Fahrenheit only once a temperature is stored;
    - the shown temperature is the stored Celsius value in the current unit;
    - at most one historical request is outstanding.

Inputs the programs take from outside are parameters:

- the upstream answers (geocoder reply, forecast payloads);
- the current instant `now` and the current hour;
- the calendar, as a function `dayOf` from a timestamp to a day number, which stands for `toDateString`;
- the date inputs' values, as day numbers, with None for an empty input.

## Model

| member | source | states |
|---|---|---|
| Common.RoundHalfUp | static/script.js:311 | `Math.round(x)` is the integer r with r <= x + 0.5 < r + 1 |
| Common.RoundHalfUpMonotone | static/script.js:468-472 | rounding half up preserves order, so rounded figures keep the order of the raw ones |
| Server.GeocodeFirstResult | app.py:24-31 | for a 200 reply with non-empty results, a place is found exactly when the first entry has latitude, longitude and name (an entry lacking one raises a KeyError, which is caught); the place then has that entry's coordinates and name, and its country, or "" when the entry has none |
| Server.GeocodeIgnoresLaterResults | app.py:24-25 | only the first result is read; appending entries after it changes nothing |
| Server.GeocodeNoResults | app.py:20-35 | a raised request, a non-200 status, or missing or empty results give None |
| Server.GetLocationFromQuery | app.py:10-35 | get_location_from_query as a function of the geocoder's reply; what it promises is stated by `Server.GeocodeFirstResult`, `Server.GeocodeIgnoresLaterResults` and `Server.GeocodeNoResults` |
| Server.ResolveWeatherLocation | app.py:48-66 | the location step of weather(); its outcomes are stated by the `Server.Weather*` lemmas |
| Server.Weather | app.py:41-96 | weather() from the request, the geocoder reply and the two forecast payloads; stated by `Server.WeatherCoordinatesWin`, `Server.WeatherUnknownName`, `Server.WeatherDefaultsToLahore`, `Server.WeatherEchoesLocation`, `Server.WeatherWithoutPastDays` and `Server.WeatherMergesPastDays` |
| Server.MergePastDays | app.py:71-85 | the merge runs only for positive past_days with both payloads truthy and a past `hourly`; a current payload without `hourly` gets an empty one; stated by `Server.WeatherWithoutPastDays` and `Server.WeatherMergesPastDays` |
| Server.WeatherCoordinatesWin | app.py:49-66 | with both coordinates truthy, the location name is never consulted; the answer is Ok whenever the forecast is truthy, and the echoed place is named after the coordinates with country "" |
| Server.WeatherUnknownName | app.py:49-57 | a name the geocoder cannot resolve, without both coordinates, is 404 "Location not found" |
| Server.WeatherDefaultsToLahore | app.py:58-63 | no name and missing or zero coordinates resolve to Lahore, Pakistan at 31.525309, 74.299928 |
| Server.WeatherEchoesLocation | app.py:87-96 | the answer is Ok exactly when the location resolved and the forecast is truthy; it echoes the resolved place exactly; a resolved location with a missing or empty forecast is 500 "Failed to fetch weather data" |
| Server.WeatherWithoutPastDays | app.py:72 | without positive past_days, the forecast payload is answered unchanged |
| Server.WeatherMergesPastDays | app.py:72-85 | with positive past days, a truthy current payload and a past payload that has `hourly`, every hourly column of the answer is the past column followed by the current one |
| Server.MergeHourly | app.py:81-85 | the key-by-key rewrite loop computes `Merged(past, current)` |
| Server.Merged | app.py:81-85 | the merged hourly object as a value; its keys and columns are stated by `Server.MergedKeys`, `Server.MergedColumn` and `Server.MergedKeepsCurrentOnly` |
| Server.MergedKeys | app.py:81-85 | the merged keys are the union of the past and current keys |
| Server.MergedColumn | app.py:81-85 | each merged column is past ++ current, so its length is the sum of the two lengths (a column only one side has counts as empty on the other) |
| Server.MergedKeepsCurrentOnly | app.py:81-85 | a key only the current data has is left untouched |
| Server.HistoricalLocationCheckedFirst | app.py:116-117 | no name and coordinates that are not both truthy give 400 "Latitude and longitude required", whatever the dates |
| Server.ResolveHistoricalLocation | app.py:107-120 | the location step of historical(), which has no default location; its outcomes are stated by the `Server.Historical*` lemmas |
| Server.Historical | app.py:98-138 | historical() from the request, the geocoder reply and the upstream data; stated by `Server.HistoricalLocationCheckedFirst`, `Server.HistoricalUnknownNameBeforeDates`, `Server.HistoricalDatesCheckedNext` and `Server.HistoricalEchoesLocation` |
| Server.HistoricalUnknownNameBeforeDates | app.py:107-115 | an unresolvable name is 404 before the dates are looked at |
| Server.HistoricalDatesCheckedNext | app.py:122-124 | once the location resolved, the answer is the 400 dates error exactly when a date is missing |
| Server.HistoricalEchoesLocation | app.py:126-138 | the answer is Ok exactly when the location resolved, both dates are present and the data is truthy; it carries the data and the resolved place |
| Server.Search | app.py:142-150 | an empty `q` is 400 "Query parameter required"; otherwise the answer is Ok exactly when geocoding finds a place, and is that place, and is 404 "Location not found" otherwise |
| Server.Suggest | app.py:174-180 | one suggestion from a complete entry: its name, its country or "", its coordinates and the display "name, country"; used by `Server.ShapeResults` |
| Server.ShapeResults | app.py:171-181 | one suggestion per entry among the first five, in order, with display "name, country"; None exactly when one of those entries lacks a required key |
| Server.Autocomplete | app.py:155-185 | a query shorter than two characters gives []; at most five results; each display is name + ", " + country; the results are non-empty exactly when the query is long enough, the reply is a 200 with results, and the first five entries are complete; they are then those entries' suggestions |
| Series.FindStartIndex | static/script.js:398-407 | the scan returns the first index whose time is at or after now, or 0 when there is none |
| Series.StartIndexUnique | static/script.js:398-407 | that characterisation determines a single index |
| Series.HourlyForecast | static/script.js:391-414 | the rendered rows are exactly those of indices [start, min(start + 24, length)), so at most 24 |
| Series.HourlyWindowUnique | static/script.js:391-414 | the strip drawn at a given `now` is determined by the data: two windows for the same data and instant are equal, and have at most 24 rows |
| Series.HourAt | static/script.js:409-412 | one hourly row: the time, the rounded temperature and humidity, and the wind, each `|| 0`; stated by `Series.HourAtMissingIsZero` |
| Series.HourAtMissingIsZero | static/script.js:391-414 | an absent or too-short temperature, humidity or wind column renders as 0; a present temperature is rounded half up |
| Series.SelectLength | static/script.js:441-459 | the group of a day has as many samples as the time column has entries on that day |
| Series.CountPresent | static/script.js:447-453 | every day that occurs has a non-empty group |
| Series.IndexInOwnGroupOnly | static/script.js:443-458 | an index lands in the group of day d exactly when its own day is d, so in exactly one group |
| Series.GroupsPartition | static/script.js:441-459 | for distinct keys covering the days, the group sizes sum to the length of the time column |
| Series.GroupByDay | static/script.js:441-459 | the loop produces `FirstSeen(days)`: the distinct days, each at the place it first occurs; they are distinct and the same days as the time column; per day the group is exactly that day's samples in index order |
| Series.FirstSeen | static/script.js:441-453 | the key order of the JavaScript `Map`: a day is appended when first met; the reference definition `Series.GroupByDay` is proved against |
| Series.FirstSeenDistinct | static/script.js:447-453 | the Map's keys are distinct and are exactly the days that occur, since a day is inserted only when `has` is false |
| Series.SortDays | static/script.js:462-464 | the sorted days are ascending and a permutation of the input |
| Series.SortDistinct | static/script.js:462-464 | sorting distinct days gives strictly increasing days, the same ones |
| Series.SmallestIsLeast | static/script.js:472 | `Math.min(...temps)` is at most every sample |
| Series.LargestIsGreatest | static/script.js:471 | `Math.max(...temps)` is at least every sample |
| Series.MeanBetween | static/script.js:468 | a day's average, its sum divided by its own count, lies between its minimum and its maximum |
| Series.FiguresOrdered | static/script.js:468-472 | the figures are numbers exactly when no sample is undefined, and then rounded min <= rounded average <= rounded max |
| Series.Figures | static/script.js:468-472 | a day's rounded average, minimum and maximum temperature, NaN (None) when a sample is undefined; stated by `Series.FiguresOrdered` |
| Series.Summarize | static/script.js:466-472 | one past-day summary: the day, its temperature figures, the rounded average humidity and the average wind; `Series.PastDays` is proved to give each day's summary of its own group |
| Series.PastDays | static/script.js:432-488 | one summary per distinct day, the same days as the time column, strictly ascending, each summarising that day's non-empty group |
| Series.PastDaysPartition | static/script.js:441-459 | the groups behind the past-day rows account for every hour exactly once |
| Series.NoDaysNoGroups | static/script.js:643-650 | there are no grouped days exactly when the time column is empty |
| Series.HistoricalRows | static/script.js:625-670 | no rows exactly when the time column is empty; otherwise one row per distinct day, ascending, each from its own non-empty group |
| Series.FiguresPerDay | static/script.js:652-670 | one row per day of the sorted list, in that order, each with the figures of that day's own non-empty group |
| Series.DisplayHistorical | static/script.js:613-671 | the "no historical data" placeholder exactly when `hourly`, `time` or `temperature_2m` is absent; "no data for the range" exactly when the time column is present but empty; day rows otherwise |
| Series.FormatTimeRoundTrip | static/script.js:492-498 | the 12-hour label with AM/PM and two-digit minutes parses back to the hour and minute it was made from |
| Series.FormatTime | static/script.js:492-498 | the label "h:mm AM/PM" with hours % 12 shown as 12 for 0 and two-digit minutes; stated by `Series.FormatTimeRoundTrip` |
| Series.ConditionMonotone | static/script.js:528-534 | a warmer temperature never gives a colder condition |
| Series.WeatherCondition | static/script.js:528-534 | the condition bands Clear (>= 20), Partly Cloudy (>= 10), Cloudy (>= 0), Snow; stated by `Series.ConditionMonotone` |
| Series.IconFollowsCondition | static/script.js:515-534 | by day each condition has its own icon; at night Clear is the moon and both cloudy conditions the starry moon; Snow is the snowflake at any hour |
| Series.WeatherIcon | static/script.js:516-525 | the icon bands by temperature and day or night (night from 18:00 to 06:00); stated by `Series.IconFollowsCondition` |
| Client.TrimStart | static/script.js:152 | the leading white space is dropped: the result is a suffix that does not start with white space, and all dropped characters are white space |
| Client.TrimEnd | static/script.js:152 | the same for the trailing white space |
| Client.Trim | static/script.js:152 | `String.prototype.trim` as `TrimEnd(TrimStart(s))`; stated by `Client.TrimStart`, `Client.TrimEnd`, `Client.TrimEndsNotSpace` and `Client.TrimIdempotent` |
| Client.TrimEndsNotSpace | static/script.js:152 | a non-empty trimmed query starts and ends with a character that is not white space |
| Client.TrimIdempotent | static/script.js:152 | trim is idempotent: trimming a trimmed string again changes nothing |
| Client.Utf16Length | static/script.js:160 | JavaScript's `length`, in UTF-16 code units: at least the number of characters and at most twice it |
| Client.Utf16LengthOfBasicText | static/script.js:160 | without characters beyond U+FFFF the length is the number of characters; one character beyond U+FFFF alone already has length 2 |
| Client.ToFahrenheitRounds | static/script.js:74-76 | the integer formula (18c + 325) / 10 equals `Math.round(c * 9/5 + 32)` |
| Client.ToFahrenheitMonotone | static/script.js:74-76 | a warmer Celsius value never shows a colder Fahrenheit one |
| Client.ToFahrenheit | static/script.js:74-76 | `Math.round(c * 9/5 + 32)` on an integer c, in integers; stated by `Client.ToFahrenheitRounds` and `Client.ToFahrenheitMonotone` |
| Client.FindByDisplay | static/script.js:239 | the first result whose display equals the query, or None when no result's display does |
| Client.WeatherQueryPrecedence | static/script.js:264-277 | a non-empty name wins; then truthy coordinates; then 31.525309 / 74.299928; `past_days` is sent exactly when positive |
| Client.WeatherQueryFor | static/script.js:262-277 | the URL parameters loadWeather builds; stated by `Client.WeatherQueryPrecedence` |
| Client.FailureMessageNonEmpty | static/script.js:282-296 | every failure shows a non-empty banner text |
| Client.FailureMessage | static/script.js:282-296 | the banner text: the JSON `error`, else "HTTP status: text" when the body is not JSON, else "Failed to load weather data (status)", or the network message; stated by `Client.FailureMessageNonEmpty` |
| Client.Dashboard.constructor | static/script.js:23-28 | no coordinates, no pending lookup, no results, unit 'c', no stored temperature |
| Client.Dashboard.ShowLoading | static/script.js:538-541 | the loading indicator shows and the content hides; nothing else changes |
| Client.Dashboard.HideLoading | static/script.js:544-547 | the reverse |
| Client.Dashboard.ShowError | static/script.js:550-552 | the banner shows exactly the given message; nothing else changes |
| Client.Dashboard.HideError | static/script.js:553-560 | the banner hides, whether by hideError or by an earlier banner's dismissal timer |
| Client.Dashboard.LoadWeather | static/script.js:258-277 | shows loading, returns `WeatherQueryFor` of its arguments, and stores the coordinates exactly when no name is given and both are truthy |
| Client.Dashboard.WeatherFailed | static/script.js:282-296 | loading hides and the banner shows the failure's message; the rendered weather is untouched |
| Client.Dashboard.StoreEchoedLocation | static/script.js:302-307 | truthy echoed coordinates are stored; otherwise they are kept |
| Client.Dashboard.ShowCurrent | static/script.js:310-369 | the rounded temperature is stored and shown in the current unit; missing wind and humidity show 0; the condition and icon follow the rounded temperature |
| Client.Dashboard.ShowForecast | static/script.js:372-381 | with `hourly`, the hourly strip is exactly the window `Series.IsHourlyWindow` of the data at `now`: the rows `HourAt` of the start index onward, `Min(start + 24, length) - start` of them; without it the strip is kept; with the toggle checked and `hourly`, the past-days strip is `Series.IsPastDaysView` of the data: one summary per distinct day, strictly ascending, each `Summarize` of that day's group; otherwise it is emptied |
| Client.Dashboard.DisplayWeather | static/script.js:300-385 | the echoed coordinates are stored when truthy; with `current`, its readings as in `ShowCurrent`, and without it every reading (temperature, wind, humidity, condition, icon) is kept; the strips as in `ShowForecast`; then the content shows |
| Client.Dashboard.ShowReadings | static/script.js:310-381 | the current readings when `current` is present, every reading kept when it is absent, then the strips as in `ShowForecast` |
| Client.Dashboard.WeatherArrived | static/script.js:289-291 | everything `DisplayWeather` states, then the banner hides and the request is no longer in flight |
| Client.Dashboard.UnitClicked | static/script.js:66-82 | the button becomes active; the unit and the shown value change only when a temperature is stored; the stored Celsius value never changes |
| Client.Dashboard.Input | static/script.js:151-167 | the pending lookup is cancelled; a trimmed query whose JavaScript length (UTF-16 code units) is below 2 clears the results, hides the dropdown and schedules nothing; a longer one schedules exactly one lookup of itself |
| Client.Dashboard.LookupTimerFired | static/script.js:167-169 | the pending lookup's query is sent and nothing is pending any more |
| Client.Dashboard.LookupResponded | static/script.js:170-183 | non-empty results replace the cached ones wholesale and show the dropdown; none clear them and hide it; a failure hides it and keeps the results |
| Client.Dashboard.Focus | static/script.js:39-43 | focusing shows the dropdown exactly when there are cached results (or it already showed) |
| Client.Dashboard.DocumentClicked | static/script.js:46-50 | a click outside the search box hides the dropdown |
| Client.Dashboard.SelectLocation | static/script.js:220-228 | the input shows the label, the dropdown hides, the coordinates are stored and their weather is requested |
| Client.Dashboard.HandleSearch | static/script.js:231-246 | an empty query shows "Please enter a location" and changes nothing else: input, dropdown, loading indicator, coordinates and requests stay; a non-empty one keeps the banner, shows loading and sends one request: the first result whose display is the query is selected with its coordinates, or else the weather is requested by name, keeping the input, the dropdown and the stored coordinates |
| Client.Dashboard.KeyDown | static/script.js:188-201 | Enter with a query keeps the banner, shows loading and sends one request: the first result is selected when there are results, otherwise the query is searched by name; Enter with an empty query does nothing; Escape only hides the dropdown; other keys do nothing |
| Client.Dashboard.EnterPressed | static/script.js:189-197 | the Enter branch of handleKeyDown: with a query, one request with the banner kept and loading shown, for the first result's coordinates or else by name; with an empty query nothing changes |
| Client.Dashboard.PastDaysToggled | static/script.js:249-255 | the stored coordinates are reloaded with past_days 10 when checked and none otherwise |
| Client.Dashboard.Start | static/script.js:87-94 | without geolocation the default location is requested at once (one more request in flight); with it, loading shows and nothing is requested yet; the stored coordinates are kept |
| Client.Dashboard.PositionArrived | static/script.js:97-100 | the position is stored and its weather requested, with loading shown and one more request in flight; from the location button the input is also cleared and the dropdown hidden |
| Client.Dashboard.StartupPositionFailed | static/script.js:102-106 | the default location is requested, with loading shown and one more request in flight; the stored coordinates are kept |
| Client.Dashboard.LocateFailed | static/script.js:116-141 | only the banner changes, with the unsupported or the unavailable message |
| Client.Dashboard.HandleHistoricalData | static/script.js:564-588 | callable only with no historical request out, since the button stays disabled until the answer (lines 583, 604-608); checks in order: stored coordinates (zero counts as missing), both dates, start not after end, each with its message; a query is sent exactly when all pass, using the stored coordinates, and then exactly one request is out |
| Client.Dashboard.HistoricalArrived | static/script.js:592-594 | the panel shows `Series.IsHistoricalView` of the answer's `hourly`: the first placeholder exactly when `hourly`, `time` or `temperature_2m` is absent, the second exactly when the time column is empty, and otherwise one row per distinct day, ascending, with that day's figures; the banner hides |
| Client.Dashboard.HistoricalRequestFailed | static/script.js:595-605 | a non-OK answer shows its `error` or "Failed to load historical data"; a thrown error shows the network message; the panel shows its placeholder |
| Client.ShortInputThenEscape | static/script.js:151-201 | after a short input and Escape, nothing is pending, there are no results and the dropdown is hidden; no request is sent, and the loading indicator, the content and the banner are as before |
| Client.UnitRoundTrip | static/script.js:66-82 | switching the unit there and back restores the shown temperature and keeps the stored one |
| Client.PickSecondSuggestion | static/script.js:151-228 | input, lookup, two suggestions, pick the second: its coordinates are stored and requested |
| Client.ToggleWithoutCoordinates | static/script.js:249-272 | with nothing stored, the toggle requests the default location |

## Left out

- `weather_api.py` is not part of this model. Its wrappers around the Open-Meteo endpoints have no logic of their own. What they return is a parameter.
- HTTP, `fetch`, `requests`, JSON decoding, Flask routing, CORS and `render_template` are not modelled. Answers are abstract inputs.
- An exception raised inside the forecast wrappers is not modelled. Flask would answer it with its own 500.
- Browser geolocation is not modelled beyond "a position arrived" or "it failed". Its 10-second timeout and the location button's icon are not modelled.
- `Client.Dashboard.PositionArrived`: the location button's disabled state (static/script.js:122, 135, 142) is not tracked. That state blocks a second click while a position request is out. The model therefore applies a button position answer, or `LocateFailed`, at any moment, including moments when the page would have no request out.
- Timers are not modelled in real time. The 300 ms debounce is a pending query that `Input` replaces and `LookupTimerFired` sends. The 5 s banner dismissal is a call of `HideError` at any later moment, which hides whatever banner is showing.
- DOM rendering is not modelled: `innerHTML` templates, the dropdown's items and CSS. Only shown/hidden flags and the rendered values are kept.
- Locale and date formatting are not modelled: `toLocaleDateString`, `toLocaleTimeString`, `toDateString`, `formatDate`, `formatHistoricalDate`, and the current-time label. Days are abstract numbers given by `dayOf`.
- The default date range of lines 56-61 is not modelled. The dates are inputs to `HandleHistoricalData`.
- Floating-point detail is not modelled: `toFixed(1)`, and the binary rounding of averages. Reals stand for numbers.
- `Series.FormatTimeRoundTrip` starts from the hour and the minute. `getHours`/`getMinutes` of a `Date` are not modelled.
- NaN is modelled only as the None of a figure, which an undefined sample causes. A missing `temperature_2m` in the current conditions, which would show NaN, is not modelled: `Current.temperature` is always present.
- JSON `null` inside the series is not modelled. A sample is a number or absent, and `null` would count as 0 in JavaScript sums.
- The server's "lat, lon" label stays abstract as `LatLon(lat, lon)`. Python's float formatting is not modelled.
- `Server.GeocodeFirstResult`: a result whose `country` is JSON `null` makes Python echo `None`. The model has only "absent", which gives "".
- `Server.ShapeResults`: a suggestion whose `country` is JSON `null` gets country `None` and display "name, None" in Python. The model has only "absent", which gives country "" and display "name, ".
- `Server.Autocomplete`: the same JSON `null` country is not modelled for the suggestions it answers.
- Races between overlapping weather requests, or between overlapping lookups, are not modelled. Their answers are applied in whatever order their methods are called, as in the code, which has no guard for either. Historical requests cannot overlap: the button is disabled until the answer comes, and `Valid()` keeps at most one outstanding.
- The initial visibility of the page elements is not modelled, because `index.html` is not part of this model. The constructor starts with the loading indicator shown, as both start-up paths show it first.
