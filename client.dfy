/**
 The orchestration state of the browser client (static/script.js): the
 module-level variables of lines 23-28 and the page state the handlers
 read and write, as one object whose methods are the event handlers.

 Network calls and timers are events: a handler that starts a request
 returns what it asks for, and the answer arrives later through another
 method (`LookupResponded`, `WeatherArrived`, ...). Weather and lookup
 answers are applied in whatever order they arrive, as in the source, which
 has no guard against a late answer to an older weather or lookup request.
 A historical request disables its button until it is answered, so at most
 one is ever outstanding.
 */
module Client {
  import opened Common
  import Series

  // ---------------------------------------------------------------------------
  // Pure helpers

  /** The characters JavaScript's `String.prototype.trim` removes: white
      space (including the space separators) and line terminators. */
  predicate IsSpace(c: char)
  {
    || c == '\U{9}' || c == '\U{A}' || c == '\U{B}' || c == '\U{C}' || c == '\U{D}'
    || c == ' ' || c == '\U{A0}' || c == '\U{1680}' || ('\U{2000}' <= c <= '\U{200A}')
    || c == '\U{2028}' || c == '\U{2029}' || c == '\U{202F}' || c == '\U{205F}' || c == '\U{3000}'
    || c == '\U{FEFF}'
  }

  /** Drops the leading white space: what is left is a suffix of `s` that
      does not start with white space, and all that was dropped is. */
  function TrimStart(s: string): (r: string)
    ensures |r| <= |s| && r == s[|s| - |r|..]
    ensures r == [] || !IsSpace(r[0])
    ensures forall k :: 0 <= k < |s| - |r| ==> IsSpace(s[k])
  {
    if s != [] && IsSpace(s[0]) then TrimStart(s[1..]) else s
  }

  /** Drops the trailing white space, symmetrically. */
  function TrimEnd(s: string): (r: string)
    ensures |r| <= |s| && r == s[..|r|]
    ensures r == [] || !IsSpace(r[|r| - 1])
    ensures forall k :: |r| <= k < |s| ==> IsSpace(s[k])
  {
    if s != [] && IsSpace(s[|s| - 1]) then TrimEnd(s[..|s| - 1]) else s
  }

  function Trim(s: string): string
  {
    TrimEnd(TrimStart(s))
  }

  /** A non-empty trimmed query starts and ends with a character that is
      not white space. */
  lemma TrimEndsNotSpace(s: string)
    ensures Trim(s) == [] || (!IsSpace(Trim(s)[0]) && !IsSpace(Trim(s)[|Trim(s)| - 1]))
  {
    var t := TrimStart(s);
    var r := TrimEnd(t);
    if r != [] {
      assert r[0] == t[0];
    }
  }

  /** Trimming twice changes nothing more. */
  lemma TrimIdempotent(s: string)
    ensures Trim(Trim(s)) == Trim(s)
  {
    var r := Trim(s);
    if r != [] {
      assert !IsSpace(TrimStart(s)[0]) by {
        assert r[0] == TrimStart(s)[0];
      }
      assert TrimStart(r) == r;
    }
  }

  /** JavaScript's `length` of a string: its UTF-16 code units, two for a
      character beyond U+FFFF and one for any other. */
  function Utf16Length(s: string): (n: nat)
    ensures |s| <= n <= 2 * |s|
  {
    if s == [] then 0
    else Utf16Length(s[..|s| - 1]) + (if s[|s| - 1] as int >= 0x1_0000 then 2 else 1)
  }

  /** Without characters beyond U+FFFF the length is the number of
      characters; a single such character already has length 2. */
  lemma {:induction false} Utf16LengthOfBasicText(s: string)
    ensures (forall i :: 0 <= i < |s| ==> s[i] as int < 0x1_0000) ==> Utf16Length(s) == |s|
    ensures |s| == 1 && s[0] as int >= 0x1_0000 ==> Utf16Length(s) == 2
  {
    if s != [] {
      Utf16LengthOfBasicText(s[..|s| - 1]);
      assert forall i :: 0 <= i < |s| - 1 ==> s[..|s| - 1][i] == s[i];
    }
  }

  /** The displayed unit, 'c' or 'f'. */
  datatype Unit = Celsius | Fahrenheit

  /** `Math.round((c * 9/5) + 32)` of an integer `c`, in integers. */
  function ToFahrenheit(c: int): int
  {
    (18 * c + 325) / 10
  }

  /** The integer formula is the rounded Fahrenheit value. */
  lemma ToFahrenheitRounds(c: int)
    ensures ToFahrenheit(c) == RoundHalfUp(c as real * 9.0 / 5.0 + 32.0)
  {
    var f := ToFahrenheit(c);
    var x := c as real * 9.0 / 5.0 + 32.0 + 0.5;
    assert x == (18 * c + 325) as real / 10.0;
    assert 10 * f <= 18 * c + 325 < 10 * f + 10;
    assert f as real <= x < f as real + 1.0;
  }

  /** Converting a colder temperature never shows a warmer one. */
  lemma ToFahrenheitMonotone(c1: int, c2: int)
    requires c1 <= c2
    ensures ToFahrenheit(c1) <= ToFahrenheit(c2)
  {
  }

  /** The temperature text for a stored Celsius value in a unit. */
  function Shown(c: int, u: Unit): int
  {
    if u == Fahrenheit then ToFahrenheit(c) else c
  }

  /** `autocompleteResults.find(r => r.display === query)`: the index of
      the first result whose display label is `query`, if any. */
  function FindByDisplay(results: seq<Location>, query: string): (r: Option<nat>)
    ensures r.Some? ==>
      && r.value < |results| && results[r.value].display == query
      && forall j :: 0 <= j < r.value ==> results[j].display != query
    ensures r.None? ==> forall j :: 0 <= j < |results| ==> results[j].display != query
  {
    if results == [] then None
    else if results[0].display == query then Some(0)
    else
      match FindByDisplay(results[1..], query)
      case Some(i) => Some(i + 1)
      case None => None
  }

  /** What /api/weather is asked for (lines 262-277). */
  datatype Target = ByName(name: string) | ByCoordinates(latitude: real, longitude: real)
  datatype WeatherQuery = WeatherQuery(target: Target, pastDays: Option<int>)

  /** A non-empty name wins; then truthy coordinates; then the default
      coordinates. `past_days` is sent only when positive. */
  function WeatherQueryFor(lat: Option<real>, lon: Option<real>, location: Option<string>, pastDays: int): WeatherQuery
  {
    var target :=
      if IsNonEmpty(location) then ByName(location.value)
      else if IsTruthy(lat) && IsTruthy(lon) then ByCoordinates(lat.value, lon.value)
      else ByCoordinates(DefaultLatitude, DefaultLongitude);
    WeatherQuery(target, if pastDays > 0 then Some(pastDays) else None)
  }

  lemma WeatherQueryPrecedence(lat: Option<real>, lon: Option<real>, location: Option<string>, pastDays: int)
    ensures var q := WeatherQueryFor(lat, lon, location, pastDays);
      && (IsNonEmpty(location) ==> q.target == ByName(location.value))
      && (!IsNonEmpty(location) && IsTruthy(lat) && IsTruthy(lon) ==> q.target == ByCoordinates(lat.value, lon.value))
      && (!IsNonEmpty(location) && !(IsTruthy(lat) && IsTruthy(lon)) ==> q.target == ByCoordinates(31.525309, 74.299928))
      && (q.pastDays.Some? <==> pastDays > 0)
      && (q.pastDays.Some? ==> q.pastDays.value == pastDays)
  {
  }

  /** `n.toString()` for a natural number. */
  function DecimalText(n: nat): (s: string)
    ensures |s| > 0
  {
    if n < 10 then [Series.DigitChar(n)] else DecimalText(n / 10) + [Series.DigitChar(n % 10)]
  }

  /** Why a weather request failed (lines 282-296). */
  datatype WeatherFailure =
    | HttpFailure(status: nat, statusText: string, body: Option<Option<string>>)
      // body: None when the error body is not JSON; Some(e) is its `error` member
    | NetworkFailure(reason: string)

  function FailureMessage(f: WeatherFailure): string
  {
    match f
    case HttpFailure(status, statusText, body) =>
      var error := if body.None? then Some("HTTP " + DecimalText(status) + ": " + statusText) else body.value;
      if IsNonEmpty(error) then error.value
      else "Failed to load weather data (" + DecimalText(status) + ")"
    case NetworkFailure(reason) =>
      "Network error: " + reason + ". Please make sure the server is running."
  }

  /** An error message is never empty, so the banner always says something. */
  lemma FailureMessageNonEmpty(f: WeatherFailure)
    ensures |FailureMessage(f)| > 0
  {
  }

  datatype Key = Enter | Escape | OtherKey

  /** The answer to one /api/autocomplete request: the fetch failed, or the
      body's `results` (None when absent). */
  datatype LookupReply = LookupFailed | LookupAnswered(results: Option<seq<Location>>)

  /** The parts of a weather answer displayWeather reads. */
  datatype EchoedLocation = EchoedLocation(latitude: Option<real>, longitude: Option<real>)
  datatype Current = Current(temperature: real, wind: Option<real>, humidity: Option<real>)
  datatype WeatherData = WeatherData(
    location: Option<EchoedLocation>,
    current: Option<Current>,
    hourly: Option<Series.HourlyData>)

  /** The current-conditions part of the page: the stored Celsius value,
      the shown temperature, wind and humidity, the condition and the icon. */
  datatype Readings = Readings(
    tempC: Option<int>,
    temperature: Option<int>,
    wind: Option<real>,
    humidity: Option<real>,
    condition: Option<Series.Condition>,
    icon: Option<Series.Icon>)

  /** What /api/historical is asked for; the dates are day numbers. */
  datatype HistoricalQuery = HistoricalQuery(latitude: real, longitude: real, startDate: int, endDate: int)

  /** Why a historical request failed: a non-OK answer with its `error`
      member (None when absent), or an error thrown by the fetch or by a
      body that is not JSON. */
  datatype HistoricalFailure = Rejected(error: Option<string>) | Thrown(reason: string)

  /** The historical panel. */
  datatype HistoricalPanel =
    | Untouched
    | HistoricalLoading
    | HistoricalShown(view: Series.HistoricalView)
    | HistoricalFailed     // "Failed to load historical data. Please try again."
    | HistoricalOffline    // "Network error. Please try again."

  // ---------------------------------------------------------------------------
  // The page

  class Dashboard {
    // Lines 23-28; `pendingLookup` is the query of the lookup that
    // `autocompleteTimeout` has scheduled and that has not fired.
    var currentLat: Option<real>
    var currentLon: Option<real>
    var pendingLookup: Option<string>
    var autocompleteResults: seq<Location>
    var currentUnit: Unit
    var currentTempC: Option<int>

    // Requests started and not yet answered.
    var lookupsInFlight: nat
    var weatherInFlight: nat
    var historicalInFlight: nat

    // The page elements the handlers read or write.
    var inputText: string
    var dropdownShown: bool
    var loadingShown: bool
    var contentShown: bool
    var errorMessage: Option<string>
    var activeUnitButton: Unit
    var shownTemperature: Option<int>
    var shownWind: Option<real>
    var shownHumidity: Option<real>
    var condition: Option<Series.Condition>
    var icon: Option<Series.Icon>
    var pastDaysChecked: bool
    var hourlyRows: seq<Series.HourRow>
    var pastDayRows: seq<Series.DaySummary>
    var historical: HistoricalPanel

    /** The invariant every handler keeps: one of the loading indicator and
        the content is visible; a pending lookup is for a query of at least
        two UTF-16 code units; the dropdown is shown only over some results; the
        unit is Fahrenheit only once a temperature is stored; the shown
        temperature is always the stored Celsius value in the current unit;
        and at most one historical request is outstanding. */
    predicate Valid()
      reads this
    {
      && loadingShown == !contentShown
      && (pendingLookup.Some? ==> Utf16Length(pendingLookup.value) >= 2)
      && (dropdownShown ==> |autocompleteResults| > 0)
      && (currentUnit == Fahrenheit ==> currentTempC.Some?)
      && shownTemperature == (if currentTempC.Some? then Some(Shown(currentTempC.value, currentUnit)) else None)
      && historicalInFlight <= 1
    }

    /** The state of lines 23-28, with the loading indicator showing (both
        start-up paths show it first). */
    constructor ()
      ensures Valid()
      ensures currentLat == None && currentLon == None && pendingLookup == None
      ensures autocompleteResults == [] && currentUnit == Celsius && currentTempC == None
      ensures loadingShown && !dropdownShown && errorMessage == None && inputText == ""
      ensures lookupsInFlight == 0 && weatherInFlight == 0 && historicalInFlight == 0
    {
      currentLat, currentLon := None, None;
      pendingLookup := None;
      autocompleteResults := [];
      currentUnit, currentTempC := Celsius, None;
      lookupsInFlight, weatherInFlight, historicalInFlight := 0, 0, 0;
      inputText := "";
      dropdownShown := false;
      loadingShown, contentShown := true, false;
      errorMessage := None;
      activeUnitButton := Celsius;
      shownTemperature, shownWind, shownHumidity := None, None, None;
      condition, icon := None, None;
      pastDaysChecked := false;
      hourlyRows, pastDayRows := [], [];
      historical := Untouched;
    }

    /** The readings of the current conditions as they stand. */
    function ReadingsNow(): Readings
      reads this
    {
      Readings(currentTempC, shownTemperature, shownWind, shownHumidity, condition, icon)
    }

    /** displayWeather, lines 302-307: truthy echoed coordinates are stored,
        otherwise the `before` ones are kept. */
    predicate EchoStored(echo: Option<EchoedLocation>, beforeLat: Option<real>, beforeLon: Option<real>)
      reads this
    {
      if echo.Some? && IsTruthy(echo.value.latitude) && IsTruthy(echo.value.longitude)
      then currentLat == echo.value.latitude && currentLon == echo.value.longitude
      else currentLat == beforeLat && currentLon == beforeLon
    }

    /** displayWeather, lines 310-369: with `current`, the rounded
        temperature is stored and shown in the current unit, missing wind and
        humidity show as 0, and the condition and icon follow the rounded
        temperature; without it every reading is as `before`. */
    predicate ReadingsShown(current: Option<Current>, hour: int, before: Readings)
      requires 0 <= hour < 24
      reads this
    {
      if current.Some? then
        var t := RoundHalfUp(current.value.temperature);
        && currentTempC == Some(t)
        && shownTemperature == Some(Shown(t, currentUnit))
        && shownWind == Some(current.value.wind.GetOr(0.0))
        && shownHumidity == Some(current.value.humidity.GetOr(0.0))
        && condition == Some(Series.WeatherCondition(t))
        && icon == Some(Series.WeatherIcon(t, hour))
      else
        ReadingsNow() == before
    }

    /** displayWeather, lines 372-381: with `hourly`, the hourly strip is the
        window at `now`, otherwise it is `before`; the past-days strip shows
        the days of `hourly` when the toggle is checked, and is empty
        otherwise. */
    ghost predicate StripsShown(hourly: Option<Series.HourlyData>, now: int, dayOf: int -> int, before: seq<Series.HourRow>)
      reads this
    {
      && (hourly.None? ==> hourlyRows == before && pastDayRows == [])
      && (hourly.Some? ==> Series.IsHourlyWindow(hourly.value, now, hourlyRows) && |hourlyRows| <= 24)
      && (hourly.Some? && !pastDaysChecked ==> pastDayRows == [])
      && (hourly.Some? && pastDaysChecked ==> Series.IsPastDaysView(hourly.value, dayOf, pastDayRows))
    }

    /** One weather request has started: loading shows, the banner is as
        `beforeError`, and one more request is in flight than `beforeInFlight`. */
    predicate WeatherRequested(beforeError: Option<string>, beforeInFlight: nat)
      reads this
    {
      errorMessage == beforeError && loadingShown && !contentShown && weatherInFlight == beforeInFlight + 1
    }

    /** selectLocation's effect: the input shows the label, the dropdown is
        hidden, and the location's coordinates are stored and requested. */
    predicate Selected(q: Option<WeatherQuery>, loc: Location)
      reads this
    {
      && q == Some(WeatherQueryFor(Some(loc.latitude), Some(loc.longitude), None, 0))
      && currentLat == Some(loc.latitude) && currentLon == Some(loc.longitude)
      && inputText == loc.display && !dropdownShown
    }

    /** The search by name: the query is requested by name, and the input,
        the dropdown and the stored coordinates are as before. */
    predicate SearchedByName(q: Option<WeatherQuery>, query: string, beforeInput: string, beforeDropdown: bool,
                             beforeLat: Option<real>, beforeLon: Option<real>)
      reads this
    {
      && q == Some(WeatherQuery(ByName(query), None))
      && inputText == beforeInput && dropdownShown == beforeDropdown
      && currentLat == beforeLat && currentLon == beforeLon
    }

    // -------------------------------------------------------------------------
    // Visibility (lines 538-561)

    method ShowLoading()
      requires Valid()
      modifies this`loadingShown, this`contentShown
      ensures Valid() && loadingShown && !contentShown
    {
      loadingShown := true;
      contentShown := false;
    }

    method HideLoading()
      requires Valid()
      modifies this`loadingShown, this`contentShown
      ensures Valid() && !loadingShown && contentShown
    {
      loadingShown := false;
      contentShown := true;
    }

    /** Shows the banner. Its 5-second dismissal hides the banner exactly
        as `HideError` does, whichever banner is showing by then. */
    method ShowError(message: string)
      requires Valid()
      modifies this`errorMessage
      ensures Valid() && errorMessage == Some(message)
    {
      errorMessage := Some(message);
    }

    /** hideError, and the dismissal timer of any earlier banner. */
    method HideError()
      requires Valid()
      modifies this`errorMessage
      ensures Valid() && errorMessage == None
    {
      errorMessage := None;
    }

    // -------------------------------------------------------------------------
    // Loading the weather (lines 258-297)

    /** Shows the loading indicator, stores truthy coordinates when no name
        is given, and returns the query it sends. */
    method LoadWeather(lat: Option<real>, lon: Option<real>, location: Option<string>, pastDays: int) returns (q: WeatherQuery)
      requires Valid()
      modifies this`loadingShown, this`contentShown, this`currentLat, this`currentLon, this`weatherInFlight
      ensures Valid()
      ensures q == WeatherQueryFor(lat, lon, location, pastDays)
      ensures loadingShown && !contentShown
      ensures weatherInFlight == old(weatherInFlight) + 1
      ensures !IsNonEmpty(location) && IsTruthy(lat) && IsTruthy(lon) ==> currentLat == lat && currentLon == lon
      ensures IsNonEmpty(location) || !(IsTruthy(lat) && IsTruthy(lon)) ==>
        currentLat == old(currentLat) && currentLon == old(currentLon)
    {
      ShowLoading();
      var target;
      if IsNonEmpty(location) {
        target := ByName(location.value);
      } else if IsTruthy(lat) && IsTruthy(lon) {
        target := ByCoordinates(lat.value, lon.value);
        currentLat := lat;
        currentLon := lon;
      } else {
        target := ByCoordinates(DefaultLatitude, DefaultLongitude);
      }
      q := WeatherQuery(target, if pastDays > 0 then Some(pastDays) else None);
      weatherInFlight := weatherInFlight + 1;
    }

    /** A failed request (lines 282-296): the loading indicator goes, the
        banner shows the message, and the rendered weather stays as it was. */
    method WeatherFailed(failure: WeatherFailure)
      requires Valid() && weatherInFlight > 0
      modifies this`loadingShown, this`contentShown, this`errorMessage, this`weatherInFlight
      ensures Valid()
      ensures !loadingShown && contentShown
      ensures errorMessage == Some(FailureMessage(failure))
      ensures weatherInFlight == old(weatherInFlight) - 1
    {
      HideLoading();
      ShowError(FailureMessage(failure));
      weatherInFlight := weatherInFlight - 1;
    }

    /** displayWeather, lines 302-307: truthy echoed coordinates are stored. */
    method StoreEchoedLocation(echo: Option<EchoedLocation>)
      requires Valid()
      modifies this`currentLat, this`currentLon
      ensures Valid()
      ensures EchoStored(echo, old(currentLat), old(currentLon))
    {
      if echo.Some? && IsTruthy(echo.value.latitude) && IsTruthy(echo.value.longitude) {
        currentLat := echo.value.latitude;
        currentLon := echo.value.longitude;
      }
    }

    /** displayWeather, lines 310-369: the rounded temperature is stored and
        shown in the current unit, missing wind and humidity show as 0, and
        the condition and icon follow the rounded temperature. */
    method ShowCurrent(cur: Current, hour: int)
      requires Valid() && 0 <= hour < 24
      modifies this`currentTempC, this`shownTemperature, this`shownWind, this`shownHumidity,
        this`condition, this`icon
      ensures Valid()
      ensures ReadingsShown(Some(cur), hour, old(ReadingsNow()))
    {
      var t := RoundHalfUp(cur.temperature);
      currentTempC := Some(t);
      shownTemperature := Some(Shown(t, currentUnit));
      shownWind := Some(cur.wind.GetOr(0.0));
      shownHumidity := Some(cur.humidity.GetOr(0.0));
      condition := Some(Series.WeatherCondition(t));
      icon := Some(Series.WeatherIcon(t, hour));
    }

    /** displayWeather, lines 372-381: the hourly strip is redrawn when the
        answer has `hourly`; the past-days strip is drawn when the toggle is
        checked too, and emptied otherwise. */
    method ShowForecast(hourly: Option<Series.HourlyData>, now: int, dayOf: int -> int)
      requires Valid()
      modifies this`hourlyRows, this`pastDayRows
      ensures Valid()
      ensures StripsShown(hourly, now, dayOf, old(hourlyRows))
    {
      if hourly.Some? {
        var start, rows := Series.HourlyForecast(hourly.value, now);
        assert Series.WindowFrom(hourly.value, start, rows);
        hourlyRows := rows;
      }
      if pastDaysChecked && hourly.Some? {
        pastDayRows := Series.PastDays(hourly.value, dayOf);
      } else {
        pastDayRows := [];
      }
    }

    /** displayWeather (lines 300-385): echoed coordinates, the current
        conditions and the forecast strips, then the content shows. */
    method DisplayWeather(data: WeatherData, now: int, hour: int, dayOf: int -> int)
      requires Valid() && 0 <= hour < 24
      modifies this`currentLat, this`currentLon, this`currentTempC, this`shownTemperature,
        this`shownWind, this`shownHumidity, this`condition, this`icon, this`hourlyRows,
        this`pastDayRows, this`loadingShown, this`contentShown
      ensures Valid()
      ensures !loadingShown && contentShown
      ensures EchoStored(data.location, old(currentLat), old(currentLon))
      ensures ReadingsShown(data.current, hour, old(ReadingsNow()))
      ensures StripsShown(data.hourly, now, dayOf, old(hourlyRows))
    {
      StoreEchoedLocation(data.location);
      ShowReadings(data, now, hour, dayOf);
      HideLoading();
    }

    /** displayWeather, lines 310-381: the current conditions when present,
        then the forecast strips. */
    method ShowReadings(data: WeatherData, now: int, hour: int, dayOf: int -> int)
      requires Valid() && 0 <= hour < 24
      modifies this`currentTempC, this`shownTemperature, this`shownWind, this`shownHumidity,
        this`condition, this`icon, this`hourlyRows, this`pastDayRows
      ensures Valid()
      ensures ReadingsShown(data.current, hour, old(ReadingsNow()))
      ensures StripsShown(data.hourly, now, dayOf, old(hourlyRows))
    {
      if data.current.Some? {
        ShowCurrent(data.current.value, hour);
      }
      ShowForecast(data.hourly, now, dayOf);
    }

    /** A successful answer (lines 289-291): displayWeather, then the
        banner hides. `now`, `hour` and `dayOf` stand for the clock and the
        calendar. */
    method WeatherArrived(data: WeatherData, now: int, hour: int, dayOf: int -> int)
      requires Valid() && weatherInFlight > 0
      requires 0 <= hour < 24
      modifies this`currentLat, this`currentLon, this`currentTempC, this`shownTemperature,
        this`shownWind, this`shownHumidity, this`condition, this`icon, this`hourlyRows,
        this`pastDayRows, this`loadingShown, this`contentShown, this`errorMessage, this`weatherInFlight
      ensures Valid()
      ensures errorMessage == None && weatherInFlight == old(weatherInFlight) - 1
      ensures !loadingShown && contentShown
      ensures EchoStored(data.location, old(currentLat), old(currentLon))
      ensures ReadingsShown(data.current, hour, old(ReadingsNow()))
      ensures StripsShown(data.hourly, now, dayOf, old(hourlyRows))
    {
      DisplayWeather(data, now, hour, dayOf);
      HideError();
      weatherInFlight := weatherInFlight - 1;
    }

    // -------------------------------------------------------------------------
    // Unit toggle (lines 66-82)

    /** The pressed button becomes active; the unit and the shown value
        change only when a temperature is stored, which is never modified. */
    method UnitClicked(u: Unit)
      requires Valid()
      modifies this`activeUnitButton, this`currentUnit, this`shownTemperature
      ensures Valid()
      ensures activeUnitButton == u
      ensures currentTempC == old(currentTempC)
      ensures currentTempC.Some? ==> currentUnit == u && shownTemperature == Some(Shown(currentTempC.value, u))
      ensures currentTempC.None? ==> currentUnit == old(currentUnit) && shownTemperature == old(shownTemperature)
    {
      activeUnitButton := u;
      if currentTempC.Some? {
        if u == Fahrenheit {
          shownTemperature := Some(ToFahrenheit(currentTempC.value));
        } else {
          shownTemperature := Some(currentTempC.value);
        }
        currentUnit := u;
      }
    }

    // -------------------------------------------------------------------------
    // Autocomplete (lines 39-50, 151-201)

    /** An input event: the pending lookup is cancelled; a trimmed query
        whose JavaScript length is below two clears the results and hides
        the dropdown, a longer one schedules a lookup of itself. */
    method Input(text: string)
      requires Valid()
      modifies this`inputText, this`pendingLookup, this`autocompleteResults, this`dropdownShown
      ensures Valid()
      ensures inputText == text
      ensures Utf16Length(Trim(text)) < 2 ==> pendingLookup == None && autocompleteResults == [] && !dropdownShown
      ensures Utf16Length(Trim(text)) >= 2 ==>
        pendingLookup == Some(Trim(text)) &&
        autocompleteResults == old(autocompleteResults) && dropdownShown == old(dropdownShown)
    {
      inputText := text;
      var query := Trim(text);
      pendingLookup := None;
      if Utf16Length(query) < 2 {
        dropdownShown := false;
        autocompleteResults := [];
        return;
      }
      pendingLookup := Some(query);
    }

    /** The debounce timer fires: the lookup of its query is sent. */
    method LookupTimerFired() returns (query: string)
      requires Valid() && pendingLookup.Some?
      modifies this`pendingLookup, this`lookupsInFlight
      ensures Valid()
      ensures query == old(pendingLookup.value) && Utf16Length(query) >= 2
      ensures pendingLookup == None && lookupsInFlight == old(lookupsInFlight) + 1
    {
      query := pendingLookup.value;
      pendingLookup := None;
      lookupsInFlight := lookupsInFlight + 1;
    }

    /** A lookup answer: non-empty results replace the cached ones and show
        the dropdown; none clear them; a failure only hides the dropdown. */
    method LookupResponded(reply: LookupReply)
      requires Valid() && lookupsInFlight > 0
      modifies this`autocompleteResults, this`dropdownShown, this`lookupsInFlight
      ensures Valid()
      ensures lookupsInFlight == old(lookupsInFlight) - 1
      ensures reply.LookupAnswered? && reply.results.Some? && |reply.results.value| > 0 ==>
        autocompleteResults == reply.results.value && dropdownShown
      ensures reply.LookupAnswered? && (reply.results.None? || reply.results.value == []) ==>
        autocompleteResults == [] && !dropdownShown
      ensures reply.LookupFailed? ==> autocompleteResults == old(autocompleteResults) && !dropdownShown
    {
      lookupsInFlight := lookupsInFlight - 1;
      match reply
      case LookupFailed =>
        dropdownShown := false;
      case LookupAnswered(results) =>
        if results.Some? && |results.value| > 0 {
          autocompleteResults := results.value;
          dropdownShown := true;
        } else {
          dropdownShown := false;
          autocompleteResults := [];
        }
    }

    /** Focusing the input shows the dropdown again over cached results. */
    method Focus()
      requires Valid()
      modifies this`dropdownShown
      ensures Valid()
      ensures dropdownShown == (old(dropdownShown) || |autocompleteResults| > 0)
    {
      if |autocompleteResults| > 0 {
        dropdownShown := true;
      }
    }

    /** A click outside the search box hides the dropdown, keeping the results. */
    method DocumentClicked(insideSearch: bool)
      requires Valid()
      modifies this`dropdownShown
      ensures Valid()
      ensures dropdownShown == (old(dropdownShown) && insideSearch)
    {
      if !insideSearch {
        dropdownShown := false;
      }
    }

    /** selectLocation (lines 220-228): the input shows the label, the
        dropdown hides, and the weather of the location's coordinates loads. */
    method SelectLocation(loc: Location) returns (q: WeatherQuery)
      requires Valid()
      modifies this`inputText, this`dropdownShown, this`currentLat, this`currentLon,
        this`loadingShown, this`contentShown, this`weatherInFlight
      ensures Valid()
      ensures inputText == loc.display && !dropdownShown
      ensures currentLat == Some(loc.latitude) && currentLon == Some(loc.longitude)
      ensures q == WeatherQueryFor(Some(loc.latitude), Some(loc.longitude), None, 0)
      ensures loadingShown && !contentShown && weatherInFlight == old(weatherInFlight) + 1
    {
      inputText := loc.display;
      dropdownShown := false;
      currentLat := Some(loc.latitude);
      currentLon := Some(loc.longitude);
      q := LoadWeather(currentLat, currentLon, None, 0);
    }

    /** handleSearch (lines 231-246). */
    method HandleSearch() returns (q: Option<WeatherQuery>)
      requires Valid()
      modifies this`inputText, this`dropdownShown, this`currentLat, this`currentLon,
        this`loadingShown, this`contentShown, this`weatherInFlight, this`errorMessage
      ensures Valid()
      ensures var query := Trim(old(inputText));
        && (query == "" ==>
              q == None && errorMessage == Some("Please enter a location") &&
              inputText == old(inputText) && dropdownShown == old(dropdownShown) &&
              loadingShown == old(loadingShown) && contentShown == old(contentShown) &&
              currentLat == old(currentLat) && currentLon == old(currentLon) &&
              weatherInFlight == old(weatherInFlight))
        && (query != "" ==> WeatherRequested(old(errorMessage), old(weatherInFlight)))
        && (query != "" && FindByDisplay(autocompleteResults, query).Some? ==>
              Selected(q, autocompleteResults[FindByDisplay(autocompleteResults, query).value]) &&
              inputText == query)
        && (query != "" && FindByDisplay(autocompleteResults, query).None? ==>
              SearchedByName(q, query, old(inputText), old(dropdownShown), old(currentLat), old(currentLon)))
    {
      var query := Trim(inputText);
      if query == "" {
        ShowError("Please enter a location");
        return None;
      }
      match FindByDisplay(autocompleteResults, query)
      case Some(i) =>
        var w := SelectLocation(autocompleteResults[i]);
        q := Some(w);
      case None =>
        var w := LoadWeather(None, None, Some(query), 0);
        q := Some(w);
    }

    /** The Enter branch of handleKeyDown (lines 189-197): the first result
        is picked, or the query is searched by name when there is none;
        an empty query does nothing. */
    method EnterPressed() returns (q: Option<WeatherQuery>)
      requires Valid()
      modifies this`inputText, this`dropdownShown, this`currentLat, this`currentLon,
        this`loadingShown, this`contentShown, this`weatherInFlight, this`errorMessage
      ensures Valid()
      ensures var query := Trim(old(inputText));
        && (query != "" ==> WeatherRequested(old(errorMessage), old(weatherInFlight)))
        && (query != "" && |autocompleteResults| > 0 ==> Selected(q, autocompleteResults[0]))
        && (query != "" && autocompleteResults == [] ==>
              SearchedByName(q, query, old(inputText), old(dropdownShown), old(currentLat), old(currentLon)))
        && (query == "" ==>
              q == None && inputText == old(inputText) && dropdownShown == old(dropdownShown) &&
              currentLat == old(currentLat) && currentLon == old(currentLon) &&
              errorMessage == old(errorMessage) && weatherInFlight == old(weatherInFlight) &&
              loadingShown == old(loadingShown) && contentShown == old(contentShown))
    {
      var query := Trim(inputText);
      if query == "" {
        return None;
      }
      if |autocompleteResults| > 0 {
        var w := SelectLocation(autocompleteResults[0]);
        return Some(w);
      }
      q := HandleSearch();
    }

    /** handleKeyDown (lines 188-201): Enter as above; Escape only hides
        the dropdown; any other key does nothing. */
    method KeyDown(key: Key) returns (q: Option<WeatherQuery>)
      requires Valid()
      modifies this`inputText, this`dropdownShown, this`currentLat, this`currentLon,
        this`loadingShown, this`contentShown, this`weatherInFlight, this`errorMessage
      ensures Valid()
      ensures var query := Trim(old(inputText));
        && (key == Enter && query != "" ==> WeatherRequested(old(errorMessage), old(weatherInFlight)))
        && (key == Enter && query != "" && |autocompleteResults| > 0 ==> Selected(q, autocompleteResults[0]))
        && (key == Enter && query != "" && autocompleteResults == [] ==>
              SearchedByName(q, query, old(inputText), old(dropdownShown), old(currentLat), old(currentLon)))
        && (key == Enter && query == "" ==>
              q == None && inputText == old(inputText) && dropdownShown == old(dropdownShown) &&
              currentLat == old(currentLat) && currentLon == old(currentLon) &&
              errorMessage == old(errorMessage) && weatherInFlight == old(weatherInFlight) &&
              loadingShown == old(loadingShown) && contentShown == old(contentShown))
      ensures key == Escape ==>
        q == None && !dropdownShown && inputText == old(inputText) &&
        currentLat == old(currentLat) && currentLon == old(currentLon) &&
        errorMessage == old(errorMessage) && weatherInFlight == old(weatherInFlight) &&
        loadingShown == old(loadingShown) && contentShown == old(contentShown)
      ensures key == OtherKey ==>
        q == None && dropdownShown == old(dropdownShown) && inputText == old(inputText) &&
        currentLat == old(currentLat) && currentLon == old(currentLon) &&
        errorMessage == old(errorMessage) && weatherInFlight == old(weatherInFlight) &&
        loadingShown == old(loadingShown) && contentShown == old(contentShown)
    {
      match key
      case Enter =>
        q := EnterPressed();
      case Escape =>
        dropdownShown := false;
        q := None;
      case OtherKey =>
        q := None;
    }

    // -------------------------------------------------------------------------
    // Past-days toggle (lines 249-255)

    /** The toggle reloads the stored coordinates, with 10 past days when
        it is checked. */
    method PastDaysToggled(checked: bool) returns (q: WeatherQuery)
      requires Valid()
      modifies this`pastDaysChecked, this`loadingShown, this`contentShown, this`currentLat,
        this`currentLon, this`weatherInFlight
      ensures Valid()
      ensures pastDaysChecked == checked
      ensures q == WeatherQueryFor(old(currentLat), old(currentLon), None, if checked then 10 else 0)
      ensures currentLat == old(currentLat) && currentLon == old(currentLon)
      ensures loadingShown && !contentShown && weatherInFlight == old(weatherInFlight) + 1
    {
      pastDaysChecked := checked;
      if checked {
        q := LoadWeather(currentLat, currentLon, None, 10);
      } else {
        q := LoadWeather(currentLat, currentLon, None, 0);
      }
    }

    // -------------------------------------------------------------------------
    // Geolocation (lines 87-148), as events

    /** Page start-up: without geolocation the default location loads at
        once; otherwise the loading indicator shows and a position is awaited. */
    method Start(geolocationSupported: bool) returns (q: Option<WeatherQuery>)
      requires Valid()
      modifies this`loadingShown, this`contentShown, this`currentLat, this`currentLon, this`weatherInFlight
      ensures Valid() && loadingShown && !contentShown
      ensures !geolocationSupported ==>
        q == Some(WeatherQueryFor(None, None, None, 0)) && weatherInFlight == old(weatherInFlight) + 1
      ensures geolocationSupported ==> q == None && weatherInFlight == old(weatherInFlight)
      ensures currentLat == old(currentLat) && currentLon == old(currentLon)
    {
      if !geolocationSupported {
        var w := LoadWeather(None, None, None, 0);
        q := Some(w);
      } else {
        ShowLoading();
        q := None;
      }
    }

    /** A position arrived, at start-up or for the location button: it is
        stored and its weather loads; for the button the input and the
        dropdown are also cleared. */
    method PositionArrived(lat: real, lon: real, fromButton: bool) returns (q: WeatherQuery)
      requires Valid()
      modifies this`currentLat, this`currentLon, this`loadingShown, this`contentShown,
        this`weatherInFlight, this`inputText, this`dropdownShown
      ensures Valid()
      ensures currentLat == Some(lat) && currentLon == Some(lon)
      ensures q == WeatherQueryFor(Some(lat), Some(lon), None, 0)
      ensures loadingShown && !contentShown && weatherInFlight == old(weatherInFlight) + 1
      ensures fromButton ==> inputText == "" && !dropdownShown
      ensures !fromButton ==> inputText == old(inputText) && dropdownShown == old(dropdownShown)
    {
      currentLat := Some(lat);
      currentLon := Some(lon);
      q := LoadWeather(currentLat, currentLon, None, 0);
      if fromButton {
        inputText := "";
        dropdownShown := false;
      }
    }

    /** The start-up position request failed or timed out: the default loads. */
    method StartupPositionFailed() returns (q: WeatherQuery)
      requires Valid()
      modifies this`loadingShown, this`contentShown, this`currentLat, this`currentLon, this`weatherInFlight
      ensures Valid()
      ensures q == WeatherQueryFor(None, None, None, 0)
      ensures loadingShown && !contentShown && weatherInFlight == old(weatherInFlight) + 1
      ensures currentLat == old(currentLat) && currentLon == old(currentLon)
    {
      q := LoadWeather(None, None, None, 0);
    }

    /** The location button without geolocation, or its request failing,
        only shows an error. */
    method LocateFailed(supported: bool)
      requires Valid()
      modifies this`errorMessage
      ensures Valid()
      ensures errorMessage == Some(if supported then "Unable to retrieve your location"
                                   else "Geolocation is not supported by your browser")
    {
      if supported {
        ShowError("Unable to retrieve your location");
      } else {
        ShowError("Geolocation is not supported by your browser");
      }
    }

    // -------------------------------------------------------------------------
    // Historical data (lines 564-610)

    /** handleHistoricalData's checks, in order: stored coordinates (a zero
        counts as missing), both dates, then start not after end. On success
        the panel shows loading and the query uses the stored coordinates.
        The button is disabled from the request until its answer (lines 583
        and 604-608), so the handler cannot run while a request is out. */
    method HandleHistoricalData(startDate: Option<int>, endDate: Option<int>) returns (q: Option<HistoricalQuery>)
      requires Valid() && historicalInFlight == 0
      modifies this`errorMessage, this`historical, this`historicalInFlight
      ensures Valid()
      ensures !(IsTruthy(currentLat) && IsTruthy(currentLon)) ==>
        q == None && errorMessage == Some("Please search for a location first")
      ensures IsTruthy(currentLat) && IsTruthy(currentLon) && (startDate.None? || endDate.None?) ==>
        q == None && errorMessage == Some("Please select both start and end dates")
      ensures IsTruthy(currentLat) && IsTruthy(currentLon) && startDate.Some? && endDate.Some? &&
              startDate.value > endDate.value ==>
        q == None && errorMessage == Some("Start date must be before end date")
      ensures q.Some? <==>
        IsTruthy(currentLat) && IsTruthy(currentLon) && startDate.Some? && endDate.Some? &&
        startDate.value <= endDate.value
      ensures q.Some? ==>
        q.value == HistoricalQuery(currentLat.value, currentLon.value, startDate.value, endDate.value) &&
        historical == HistoricalLoading && historicalInFlight == old(historicalInFlight) + 1 &&
        errorMessage == old(errorMessage)
      ensures q.None? ==> historical == old(historical) && historicalInFlight == old(historicalInFlight)
    {
      if !IsTruthy(currentLat) || !IsTruthy(currentLon) {
        ShowError("Please search for a location first");
        return None;
      }
      if startDate.None? || endDate.None? {
        ShowError("Please select both start and end dates");
        return None;
      }
      if startDate.value > endDate.value {
        ShowError("Start date must be before end date");
        return None;
      }
      historical := HistoricalLoading;
      historicalInFlight := historicalInFlight + 1;
      q := Some(HistoricalQuery(currentLat.value, currentLon.value, startDate.value, endDate.value));
    }

    /** An OK answer: its `hourly` object is rendered and the banner hides. */
    method HistoricalArrived(hourly: Option<Series.HourlyData>, dayOf: int -> int)
      requires Valid() && historicalInFlight > 0
      modifies this`historical, this`errorMessage, this`historicalInFlight
      ensures Valid()
      ensures historical.HistoricalShown? && Series.IsHistoricalView(hourly, dayOf, historical.view)
      ensures errorMessage == None
      ensures historicalInFlight == old(historicalInFlight) - 1
    {
      var view := Series.DisplayHistorical(hourly, dayOf);
      historical := HistoricalShown(view);
      HideError();
      historicalInFlight := historicalInFlight - 1;
    }

    /** A non-OK answer, or a thrown error (lines 596-605): the banner
        and a placeholder show. */
    method HistoricalRequestFailed(failure: HistoricalFailure)
      requires Valid() && historicalInFlight > 0
      modifies this`historical, this`errorMessage, this`historicalInFlight
      ensures Valid()
      ensures historicalInFlight == old(historicalInFlight) - 1
      ensures failure.Thrown? ==>
        historical == HistoricalOffline &&
        errorMessage == Some("Network error: " + failure.reason + ". Please make sure the server is running.")
      ensures failure.Rejected? ==>
        historical == HistoricalFailed &&
        errorMessage == Some(if IsNonEmpty(failure.error) then failure.error.value else "Failed to load historical data")
    {
      historicalInFlight := historicalInFlight - 1;
      match failure
      case Thrown(reason) =>
        ShowError("Network error: " + reason + ". Please make sure the server is running.");
        historical := HistoricalOffline;
      case Rejected(error) =>
        ShowError(if IsNonEmpty(error) then error.value else "Failed to load historical data");
        historical := HistoricalFailed;
    }
  }

  // ---------------------------------------------------------------------------
  // Properties across handlers

  /** Whatever the state, a short input leaves a hidden dropdown, no
      results and nothing scheduled; a following Escape keeps it so, and
      neither sends a request nor touches the loading indicator or the banner. */
  method ShortInputThenEscape(d: Dashboard, text: string)
    requires d.Valid() && Utf16Length(Trim(text)) < 2
    modifies d
    ensures d.Valid() && d.autocompleteResults == [] && !d.dropdownShown && d.pendingLookup == None
    ensures d.loadingShown == old(d.loadingShown) && d.contentShown == old(d.contentShown)
    ensures d.weatherInFlight == old(d.weatherInFlight) && d.lookupsInFlight == old(d.lookupsInFlight)
    ensures d.errorMessage == old(d.errorMessage)
  {
    d.Input(text);
    var q := d.KeyDown(Escape);
  }

  /** Toggling the unit there and back restores the shown temperature and
      never touches the stored Celsius value. */
  method UnitRoundTrip(d: Dashboard)
    requires d.Valid()
    modifies d
    ensures d.Valid()
    ensures d.currentTempC == old(d.currentTempC)
    ensures d.shownTemperature == old(d.shownTemperature)
  {
    var u := d.currentUnit;
    var other := if u == Celsius then Fahrenheit else Celsius;
    d.UnitClicked(other);
    d.UnitClicked(u);
  }

  /** Typing a query, the lookup firing and answering two suggestions,
      then picking the second: its coordinates are stored and requested. */
  method PickSecondSuggestion(d: Dashboard, text: string, first: Location, second: Location) returns (q: WeatherQuery)
    requires d.Valid() && Utf16Length(Trim(text)) >= 2
    requires second.latitude != 0.0 && second.longitude != 0.0
    modifies d
    ensures d.Valid() && d.autocompleteResults == [first, second]
    ensures d.currentLat == Some(second.latitude) && d.currentLon == Some(second.longitude)
    ensures q.target == ByCoordinates(second.latitude, second.longitude)
    ensures d.inputText == second.display && !d.dropdownShown && d.loadingShown
  {
    d.Input(text);
    var query := d.LookupTimerFired();
    d.LookupResponded(LookupAnswered(Some([first, second])));
    q := d.SelectLocation(d.autocompleteResults[1]);
  }

  /** With no stored coordinates the past-days toggle asks for the same
      default location as the start-up fallback. */
  method ToggleWithoutCoordinates(d: Dashboard, checked: bool) returns (q: WeatherQuery)
    requires d.Valid() && d.currentLat == None && d.currentLon == None
    modifies d
    ensures q.target == ByCoordinates(DefaultLatitude, DefaultLongitude)
    ensures q.target == WeatherQueryFor(None, None, None, 0).target
  {
    q := d.PastDaysToggled(checked);
  }
}
