/**
 The request logic of the Flask server (app.py): geocoding of a place
 name, resolution of the location a weather or historical request is
 about, the merge of past and current hourly series, and the guards and
 result shaping of the search and autocomplete endpoints.

 The upstream services are not called: what they answered is a parameter.
 */
module Server {
  import opened Common

  /** A place name: one the geocoder or the default gave, or the
      coordinate pair that the server prints as "lat, lon". */
  datatype Label = Named(text: string) | LatLon(lat: real, lon: real)

  /** The location a weather or historical answer echoes. */
  datatype Place = Place(latitude: real, longitude: real, name: Label, country: string)

  /** One entry of the geocoder's `results`; a key the entry lacks is None. */
  datatype GeoEntry = GeoEntry(
    latitude: Option<real>,
    longitude: Option<real>,
    name: Option<string>,
    country: Option<string>)

  /** One request to the geocoder: it raised, or it answered with a status
      and (perhaps) a `results` list. */
  datatype GeoReply = Raised | Reply(status: int, results: Option<seq<GeoEntry>>)

  /** An entry from which `result["latitude"]`, `result["longitude"]` and
      `result["name"]` can be read without a KeyError. */
  predicate Complete(e: GeoEntry)
  {
    e.latitude.Some? && e.longitude.Some? && e.name.Some?
  }

  /** The reply is a 200 whose `results` is a non-empty list (truthy in Python). */
  predicate HasResults(reply: GeoReply)
  {
    reply.Reply? && reply.status == 200 && reply.results.Some? && |reply.results.value| > 0
  }

  // ---------------------------------------------------------------------------
  // get_location_from_query

  /** The first result's coordinates, name and country ("" when absent);
      None for a failed request, a non-200 status, missing or empty results,
      or a first entry lacking a required key (the KeyError is caught). */
  function GetLocationFromQuery(reply: GeoReply): Option<Place>
  {
    if HasResults(reply) && Complete(reply.results.value[0]) then
      var e := reply.results.value[0];
      Some(Place(e.latitude.value, e.longitude.value, Named(e.name.value), e.country.GetOr("")))
    else
      None
  }

  /** With results, a place is found exactly when the first entry has the
      three required keys; it then carries that entry's coordinates and
      name, and its country, which is "" when the entry has none. */
  lemma GeocodeFirstResult(reply: GeoReply)
    requires HasResults(reply)
    ensures var e := reply.results.value[0];
      var r := GetLocationFromQuery(reply);
      && (r.Some? <==> Complete(e))
      && (r.Some? ==>
            && r.value.latitude == e.latitude.value
            && r.value.longitude == e.longitude.value
            && r.value.name == Named(e.name.value)
            && (e.country.Some? ==> r.value.country == e.country.value)
            && (e.country.None? ==> r.value.country == ""))
  {
  }

  /** Only the first entry is read: what follows it never matters. */
  lemma GeocodeIgnoresLaterResults(e: GeoEntry, rest: seq<GeoEntry>)
    ensures GetLocationFromQuery(Reply(200, Some([e] + rest))) == GetLocationFromQuery(Reply(200, Some([e])))
  {
  }

  lemma GeocodeNoResults(reply: GeoReply)
    requires reply.Raised? || reply.status != 200 || reply.results == None || reply.results == Some([])
    ensures GetLocationFromQuery(reply) == None
  {
  }

  // ---------------------------------------------------------------------------
  // weather(): location resolution

  /** Lines 49-66: a location name is geocoded only when the coordinates are
      not both truthy; without a name and coordinates, Lahore. */
  function ResolveWeatherLocation(query: string, lat: Option<real>, lon: Option<real>, geocode: GeoReply): Result<Place>
  {
    if query != "" && !(IsTruthy(lat) && IsTruthy(lon)) then
      match GetLocationFromQuery(geocode)
      case Some(p) => Ok(p)
      case None => Err(404, "Location not found")
    else if !(IsTruthy(lat) && IsTruthy(lon)) then
      Ok(Place(DefaultLatitude, DefaultLongitude, Named("Lahore"), "Pakistan"))
    else
      Ok(Place(lat.value, lon.value, LatLon(lat.value, lon.value), ""))
  }

  // ---------------------------------------------------------------------------
  // weather(): merging the past days into the hourly series

  /** A value of an hourly column: a number or a timestamp text. */
  datatype JsonCell = Number(x: real) | Stamp(text: string)

  /** The `hourly` object: one column per key. */
  type Hourly = map<string, seq<JsonCell>>

  /** A decoded upstream JSON object: its `hourly` object, if any, and the
      names of its other keys. */
  datatype Payload = Payload(hourly: Option<Hourly>, fields: set<string>)

  /** Python truthiness of what `get_current_forecast` and friends return:
      None and the empty dict are false. */
  predicate Truthy(p: Option<Payload>)
  {
    p.Some? && (p.value.hourly.Some? || p.value.fields != {})
  }

  function Column(h: Hourly, key: string): seq<JsonCell>
  {
    if key in h then h[key] else []
  }

  /** Lines 81-85 as a value: each past column is prepended to the current
      column of the same key, or stands alone; other current columns stay. */
  function Merged(past: Hourly, current: Hourly): Hourly
  {
    map k | k in past.Keys + current.Keys :: if k in past then past[k] + Column(current, k) else current[k]
  }

  /** The loop of lines 81-85, rewriting the current hourly object key by key. */
  method MergeHourly(past: Hourly, current: Hourly) returns (merged: Hourly)
    ensures merged == Merged(past, current)
  {
    merged := current;
    var todo := past.Keys;
    while todo != {}
      invariant todo <= past.Keys
      invariant merged.Keys == current.Keys + (past.Keys - todo)
      invariant forall k :: k in merged ==>
        merged[k] == if k in past && k !in todo then past[k] + Column(current, k) else current[k]
      decreases todo
    {
      var k :| k in todo;
      if k in merged {
        merged := merged[k := past[k] + merged[k]];
      } else {
        merged := merged[k := past[k]];
      }
      todo := todo - {k};
    }
  }

  lemma MergedKeys(past: Hourly, current: Hourly)
    ensures Merged(past, current).Keys == past.Keys + current.Keys
  {
  }

  /** Every merged column is the past column followed by the current one,
      so its length is the sum of the two. */
  lemma MergedColumn(past: Hourly, current: Hourly, k: string)
    requires k in past.Keys + current.Keys
    ensures Merged(past, current)[k] == Column(past, k) + Column(current, k)
    ensures |Merged(past, current)[k]| == |Column(past, k)| + |Column(current, k)|
  {
  }

  /** A key only the current series has is left as it was. */
  lemma MergedKeepsCurrentOnly(past: Hourly, current: Hourly, k: string)
    requires k in current && k !in past
    ensures Merged(past, current)[k] == current[k]
  {
  }

  /** Lines 72-85: the merge runs only when past days were asked for, both
      payloads are truthy and the past payload has an `hourly` object; a
      current payload without one gets an empty one first. */
  function MergePastDays(pastDays: int, current: Option<Payload>, past: Option<Payload>): Option<Payload>
  {
    if pastDays > 0 && Truthy(past) && Truthy(current) && past.value.hourly.Some? then
      var cur := current.value;
      Some(cur.(hourly := Some(Merged(past.value.hourly.value, cur.hourly.GetOr(map[])))))
    else
      current
  }

  /** The request parameters of /api/weather; a parameter that is absent
      or does not parse is None (or 0 for past_days, its default). */
  datatype WeatherRequest = WeatherRequest(
    location: string,
    latitude: Option<real>,
    longitude: Option<real>,
    pastDays: int)

  /** A successful answer: the upstream payload and the echoed `location`. */
  datatype Answer = Answer(payload: Payload, location: Place)

  /** weather(): `current` and `past` are what get_current_forecast and
      get_past_10_days returned for the resolved coordinates. */
  function Weather(req: WeatherRequest, geocode: GeoReply, current: Option<Payload>, past: Option<Payload>): Result<Answer>
  {
    match ResolveWeatherLocation(req.location, req.latitude, req.longitude, geocode)
    case Err(status, message) => Err(status, message)
    case Ok(place) =>
      var data := MergePastDays(req.pastDays, current, past);
      if Truthy(data) then Ok(Answer(data.value, place))
      else Err(500, "Failed to fetch weather data")
  }

  /** With both coordinates truthy the location name is never geocoded and
      the place is named after the coordinates, with country "". */
  lemma WeatherCoordinatesWin(req: WeatherRequest, g1: GeoReply, g2: GeoReply, current: Option<Payload>, past: Option<Payload>)
    requires IsTruthy(req.latitude) && IsTruthy(req.longitude)
    ensures Weather(req, g1, current, past) == Weather(req, g2, current, past)
    ensures Truthy(current) ==> Weather(req, g1, current, past).Ok?
    ensures Weather(req, g1, current, past).Ok? ==>
      Weather(req, g1, current, past).value.location ==
        Place(req.latitude.value, req.longitude.value, LatLon(req.latitude.value, req.longitude.value), "")
  {
  }

  /** An unknown name is a 404 whatever the forecasts would have been. */
  lemma WeatherUnknownName(req: WeatherRequest, geocode: GeoReply, current: Option<Payload>, past: Option<Payload>)
    requires req.location != "" && !(IsTruthy(req.latitude) && IsTruthy(req.longitude))
    requires GetLocationFromQuery(geocode) == None
    ensures Weather(req, geocode, current, past) == Err(404, "Location not found")
  {
  }

  /** No name and missing (or zero) coordinates: Lahore. */
  lemma WeatherDefaultsToLahore(req: WeatherRequest, geocode: GeoReply, current: Option<Payload>, past: Option<Payload>)
    requires req.location == "" && !(IsTruthy(req.latitude) && IsTruthy(req.longitude))
    requires Truthy(current)
    ensures Weather(req, geocode, current, past) ==
      Ok(Answer(MergePastDays(req.pastDays, current, past).value,
                Place(31.525309, 74.299928, Named("Lahore"), "Pakistan")))
  {
  }

  /** Lines 87-96: success echoes exactly the resolved place; a missing or
      empty forecast is a 500 once the location resolved. */
  lemma WeatherEchoesLocation(req: WeatherRequest, geocode: GeoReply, current: Option<Payload>, past: Option<Payload>)
    ensures var loc := ResolveWeatherLocation(req.location, req.latitude, req.longitude, geocode);
      var w := Weather(req, geocode, current, past);
      && (w.Ok? <==> loc.Ok? && Truthy(current))
      && (w.Ok? ==> w.value.location == loc.value)
      && (loc.Ok? && !Truthy(current) ==> w == Err(500, "Failed to fetch weather data"))
  {
    var loc := ResolveWeatherLocation(req.location, req.latitude, req.longitude, geocode);
    if loc.Ok? && Truthy(current) {
      assert Truthy(MergePastDays(req.pastDays, current, past));
    }
  }

  /** Without past days the current forecast is answered unchanged. */
  lemma WeatherWithoutPastDays(req: WeatherRequest, geocode: GeoReply, current: Option<Payload>, past: Option<Payload>)
    requires req.pastDays <= 0
    ensures Weather(req, geocode, current, past).Ok? ==> Weather(req, geocode, current, past).value.payload == current.value
  {
  }

  /** With positive past days, a truthy current payload and a past payload
      that has `hourly`, every hourly column of the answer is past followed
      by current. */
  lemma WeatherMergesPastDays(req: WeatherRequest, geocode: GeoReply, current: Payload, past: Payload, k: string)
    requires req.pastDays > 0 && Truthy(Some(current)) && past.hourly.Some?
    requires Weather(req, geocode, Some(current), Some(past)).Ok?
    requires k in past.hourly.value || (current.hourly.Some? && k in current.hourly.value)
    ensures var h := Weather(req, geocode, Some(current), Some(past)).value.payload.hourly;
      && h.Some? && k in h.value
      && h.value[k] == Column(past.hourly.value, k) + Column(current.hourly.GetOr(map[]), k)
  {
    var cur := current.hourly.GetOr(map[]);
    MergedColumn(past.hourly.value, cur, k);
  }

  // ---------------------------------------------------------------------------
  // historical()

  datatype HistoricalRequest = HistoricalRequest(
    location: string,
    latitude: Option<real>,
    longitude: Option<real>,
    startDate: string,
    endDate: string)

  /** Lines 107-120: as for weather(), except that missing coordinates are
      an error instead of Lahore. */
  function ResolveHistoricalLocation(query: string, lat: Option<real>, lon: Option<real>, geocode: GeoReply): Result<Place>
  {
    if query != "" && !(IsTruthy(lat) && IsTruthy(lon)) then
      match GetLocationFromQuery(geocode)
      case Some(p) => Ok(p)
      case None => Err(404, "Location not found")
    else if !(IsTruthy(lat) && IsTruthy(lon)) then
      Err(400, "Latitude and longitude required")
    else
      Ok(Place(lat.value, lon.value, LatLon(lat.value, lon.value), ""))
  }

  /** historical(): `data` is what get_historical_data returned. */
  function Historical(req: HistoricalRequest, geocode: GeoReply, data: Option<Payload>): Result<Answer>
  {
    match ResolveHistoricalLocation(req.location, req.latitude, req.longitude, geocode)
    case Err(status, message) => Err(status, message)
    case Ok(place) =>
      if req.startDate == "" || req.endDate == "" then
        Err(400, "start_date and end_date required (format: YYYY-MM-DD)")
      else if Truthy(data) then
        Ok(Answer(data.value, place))
      else
        Err(500, "Failed to fetch historical data")
  }

  /** The location is checked before the dates: no coordinates and no name
      is a 400 whatever the dates are. */
  lemma HistoricalLocationCheckedFirst(req: HistoricalRequest, geocode: GeoReply, data: Option<Payload>)
    requires req.location == "" && !(IsTruthy(req.latitude) && IsTruthy(req.longitude))
    ensures Historical(req, geocode, data) == Err(400, "Latitude and longitude required")
  {
  }

  /** An unknown name is a 404 even when the dates are missing. */
  lemma HistoricalUnknownNameBeforeDates(req: HistoricalRequest, geocode: GeoReply, data: Option<Payload>)
    requires req.location != "" && !(IsTruthy(req.latitude) && IsTruthy(req.longitude))
    requires GetLocationFromQuery(geocode) == None
    ensures Historical(req, geocode, data) == Err(404, "Location not found")
  {
  }

  /** Once the location resolved, a missing date is the next error. */
  lemma HistoricalDatesCheckedNext(req: HistoricalRequest, geocode: GeoReply, data: Option<Payload>)
    requires ResolveHistoricalLocation(req.location, req.latitude, req.longitude, geocode).Ok?
    ensures (req.startDate == "" || req.endDate == "") <==>
      Historical(req, geocode, data) == Err(400, "start_date and end_date required (format: YYYY-MM-DD)")
  {
  }

  /** Success echoes the resolved place and the upstream data unchanged. */
  lemma HistoricalEchoesLocation(req: HistoricalRequest, geocode: GeoReply, data: Option<Payload>)
    ensures var loc := ResolveHistoricalLocation(req.location, req.latitude, req.longitude, geocode);
      var h := Historical(req, geocode, data);
      && (h.Ok? <==> loc.Ok? && req.startDate != "" && req.endDate != "" && Truthy(data))
      && (h.Ok? ==> h.value == Answer(data.value, loc.value))
  {
  }

  // ---------------------------------------------------------------------------
  // search()

  /** search(): an empty `q` is refused before the geocoder is asked. */
  function Search(q: string, geocode: GeoReply): (r: Result<Place>)
    ensures q == "" ==> r == Err(400, "Query parameter required")
    ensures q != "" ==> (r.Ok? <==> GetLocationFromQuery(geocode).Some?)
    ensures r.Ok? ==> GetLocationFromQuery(geocode) == Some(r.value)
    ensures q != "" && r.Err? ==> r == Err(404, "Location not found")
  {
    if q == "" then Err(400, "Query parameter required")
    else
      match GetLocationFromQuery(geocode)
      case Some(p) => Ok(p)
      case None => Err(404, "Location not found")
  }

  // ---------------------------------------------------------------------------
  // autocomplete()

  /** The suggestion built from one complete entry (lines 174-180). */
  function Suggest(e: GeoEntry): Location
    requires Complete(e)
  {
    var country := e.country.GetOr("");
    Location(e.name.value, country, e.latitude.value, e.longitude.value, e.name.value + ", " + country)
  }

  /** The append loop of lines 172-180 over the first five entries; None
      when one of them lacks a required key (the exception of line 183). */
  method ShapeResults(entries: seq<GeoEntry>) returns (r: Option<seq<Location>>)
    ensures r.Some? <==> forall i :: 0 <= i < Min(5, |entries|) ==> Complete(entries[i])
    ensures r.Some? ==> |r.value| == Min(5, |entries|)
    ensures r.Some? ==> forall i :: 0 <= i < |r.value| ==> Complete(entries[i]) && r.value[i] == Suggest(entries[i])
  {
    var limited := entries[..Min(5, |entries|)];
    var results: seq<Location> := [];
    for i := 0 to |limited|
      invariant |results| == i
      invariant forall j :: 0 <= j < i ==> Complete(limited[j]) && results[j] == Suggest(limited[j])
    {
      var e := limited[i];
      if !Complete(e) {
        return None;
      }
      results := results + [Suggest(e)];
    }
    r := Some(results);
  }

  /** autocomplete(): at most five suggestions whose `display` is
      "name, country"; empty for a short query (without asking the
      geocoder), a failed request, a non-200 status, no results, or an
      incomplete entry among the first five. */
  method Autocomplete(q: string, reply: GeoReply) returns (results: seq<Location>)
    ensures |q| < 2 ==> results == []
    ensures |results| <= 5
    ensures forall i :: 0 <= i < |results| ==> results[i].display == results[i].name + ", " + results[i].country
    ensures results != [] <==>
      |q| >= 2 && HasResults(reply) &&
      forall i :: 0 <= i < Min(5, |reply.results.value|) ==> Complete(reply.results.value[i])
    ensures results != [] ==>
      |results| == Min(5, |reply.results.value|) &&
      forall i :: 0 <= i < |results| ==> Complete(reply.results.value[i]) && results[i] == Suggest(reply.results.value[i])
  {
    if q == "" || |q| < 2 {
      return [];
    }
    if !HasResults(reply) {
      return [];
    }
    var shaped := ShapeResults(reply.results.value);
    match shaped
    case None => results := [];
    case Some(rs) => results := rs;
  }
}
