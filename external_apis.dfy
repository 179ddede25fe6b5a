/** The external-data gateway (services/external_apis.py) without its
    network: weather and places lookups with their per-instance memo tables
    and fixed fallback records, transport lookups, destination parsing, and
    the post-processing of the provider responses. Every HTTP exchange is an
    abstract input: it either raised or came back with a status and a body. */
module ExternalApis {
  import opened Common
  import opened Models

  // ---------------------------------------------------------------------------
  // Records
  // ---------------------------------------------------------------------------

  datatype Forecast = Forecast(
    date: string, time: string, temperature: real, description: string, humidity: real, windSpeed: real)

  datatype WeatherReport = WeatherReport(forecasts: seq<Forecast>, recommendations: seq<string>)

  datatype Place = Place(
    name: string, rating: real, priceLevel: int, types: seq<string>, vicinity: string, placeId: string)

  /** A place as the provider returns it: any field may be missing. */
  datatype RawPlace = RawPlace(
    name: Option<string>, rating: Option<real>, priceLevel: Option<int>,
    types: Option<seq<string>>, vicinity: Option<string>, placeId: Option<string>)

  datatype Transport = Transport(duration: string, distance: string, status: string)

  /** An HTTP exchange: it raised (connection error, timeout, undecodable
      JSON), or it answered with a status and a body. */
  datatype HttpOutcome<B> = NetworkError(message: string) | Response(status: int, body: B)

  /** A decoded forecast body: the forecasts inside the trip window (the
      timestamp filtering is not modelled), or one whose processing raises. */
  datatype WeatherBody = ForecastList(forecasts: seq<Forecast>) | MalformedWeather

  /** A decoded places body: its `results` list if present, or one whose
      processing raises. */
  datatype PlacesBody = PlacesResults(results: Option<seq<RawPlace>>) | MalformedPlaces

  datatype TransportElement = TransportElement(durationText: Option<string>, distanceText: Option<string>, status: Option<string>)
  datatype TransportRow = TransportRow(elements: Option<seq<TransportElement>>)
  /** A decoded distance-matrix body: its `rows` list if present, or one
      whose processing raises (a null `rows`, a row that is not a
      dictionary). */
  datatype TransportBody = TransportBody(rows: Option<seq<TransportRow>>) | MalformedTransport

  // ---------------------------------------------------------------------------
  // Fixed fallback records
  // ---------------------------------------------------------------------------

  const PleasantLine: string := "☀️ Pleasant weather expected - perfect for outdoor activities"
  const LayersLine: string := "👕 Pack light layers for temperature variations"

  /** Two forecasts with all six fields, and two recommendations. */
  function MockWeather(): (w: WeatherReport)
    ensures |w.forecasts| == 2 && |w.recommendations| == 2
    ensures w.forecasts[0].date == "2024-06-15" && w.forecasts[1].date == "2024-06-16"
  {
    WeatherReport(
      [Forecast("2024-06-15", "09:00", 22.0, "partly cloudy", 65.0, 3.2),
       Forecast("2024-06-16", "09:00", 24.0, "sunny", 60.0, 2.8)],
      [PleasantLine, LayersLine])
  }

  /** A single place. */
  function MockPlaces(): (p: seq<Place>)
    ensures |p| == 1 && p[0].placeId == "mock_place_1"
  {
    [Place("City Center", 4.5, 2, ["tourist_attraction", "point_of_interest"], "Downtown", "mock_place_1")]
  }

  function MockTransportation(): Transport
  {
    Transport("15 minutes", "2.5 km", "OK")
  }

  // ---------------------------------------------------------------------------
  // Destination parsing
  // ---------------------------------------------------------------------------

  /** City and country from "City, Country": with a comma, the stripped runs
      before the first comma and between the first and the second (later
      runs are dropped); without one, the whole stripped string and "". */
  function ParseDestination(destination: string): (r: (string, string))
    ensures ',' !in destination ==> r == (Strip(destination), "")
    ensures ',' in destination ==>
      var i := IndexOf(destination, ',');
      var rest := destination[i + 1..];
      r.0 == Strip(destination[..i]) &&
      r.1 == Strip(if ',' in rest then rest[..IndexOf(rest, ',')] else rest)
  {
    SplitFirstParts(destination, ',');
    var parts := Split(destination, ',');
    if |parts| >= 2 then
      SplitFirstParts(destination[IndexOf(destination, ',') + 1..], ',');
      (Strip(parts[0]), Strip(parts[1]))
    else (Strip(destination), "")
  }

  /** "City, Country" with exactly one comma parses to the two stripped runs. */
  lemma ParseDestinationTwoParts(city: string, country: string)
    requires ',' !in city && ',' !in country
    ensures ParseDestination(city + [','] + country) == (Strip(city), Strip(country))
  {
    var d := city + [','] + country;
    assert d[|city|] == ',';
    var i := IndexOf(d, ',');
    assert i == |city|;
    assert d[..i] == city;
    assert d[i + 1..] == country;
  }

  /** Whitespace before the city, such as an information separator
      (U+001C to U+001F), does not reach the parsed city. */
  lemma ParseDestinationDropsLeadingSpace(c: char, city: string, country: string)
    requires IsSpace(c) && ',' !in city && ',' !in country
    ensures ParseDestination([c] + city + [','] + country) == (Strip(city), Strip(country))
  {
    ParseDestinationTwoParts([c] + city, country);
    StripSkipsLeadingSpace(c, city);
  }

  // ---------------------------------------------------------------------------
  // Weather advice
  // ---------------------------------------------------------------------------

  const CheckWeatherLine: string := "Check local weather before your trip"
  const ColdLine: string := "🌡️ Cold weather expected - pack warm clothing and layers"
  const WarmLine: string := "☀️ Warm weather expected - pack light clothing and sunscreen"
  const RainLine: string := "🌧️ Rain expected - pack rain gear and consider indoor activities"
  const SnowLine: string := "❄️ Snow expected - pack winter gear and check road conditions"

  function SumTemperatures(fs: seq<Forecast>): real
  {
    if fs == [] then 0.0 else SumTemperatures(fs[..|fs| - 1]) + fs[|fs| - 1].temperature
  }

  function AverageTemperature(fs: seq<Forecast>): real
    requires fs != []
  {
    SumTemperatures(fs) / |fs| as real
  }

  /** Some forecast's lower-cased description contains `word`. */
  predicate AnyDescriptionContains(fs: seq<Forecast>, word: string)
  {
    exists i :: 0 <= i < |fs| && Contains(Lower(fs[i].description), word)
  }

  /** The weather advice: for no forecasts, only the "check local weather"
      line; otherwise, in this order, a cold line (average below 10) or a
      warm line (average above 25), a rain line, and a snow line, each
      present exactly when its condition holds. */
  function WeatherAdvice(fs: seq<Forecast>): (r: seq<string>)
    ensures fs == [] ==> r == [CheckWeatherLine]
    ensures fs != [] ==>
      && (ColdLine in r <==> AverageTemperature(fs) < 10.0)
      && (WarmLine in r <==> AverageTemperature(fs) > 25.0)
      && (RainLine in r <==> AnyDescriptionContains(fs, "rain"))
      && (SnowLine in r <==> AnyDescriptionContains(fs, "snow"))
  {
    LinesDistinct();
    if fs == [] then [CheckWeatherLine]
    else
      var avg := AverageTemperature(fs);
      (if avg < 10.0 then [ColdLine] else if avg > 25.0 then [WarmLine] else [])
      + (if AnyDescriptionContains(fs, "rain") then [RainLine] else [])
      + (if AnyDescriptionContains(fs, "snow") then [SnowLine] else [])
  }

  lemma LinesDistinct()
    ensures ColdLine != WarmLine && ColdLine != RainLine && ColdLine != SnowLine
    ensures WarmLine != RainLine && WarmLine != SnowLine && RainLine != SnowLine
  {
  }

  /** The lines come in a fixed order: the advice is the sub-list of
      [cold, warm, rain, snow] made of the lines it contains. */
  lemma WeatherAdviceOrder(fs: seq<Forecast>)
    requires fs != []
    ensures WeatherAdvice(fs) == Filter([ColdLine, WarmLine, RainLine, SnowLine], (l: string) => l in WeatherAdvice(fs))
  {
    LinesDistinct();
    var r := WeatherAdvice(fs);
    FilterOfFour(ColdLine, WarmLine, RainLine, SnowLine, (l: string) => l in r);
    var avg := AverageTemperature(fs);
    OptionalLinesInOrder(ColdLine, WarmLine, RainLine, SnowLine, avg < 10.0, avg > 25.0,
                         AnyDescriptionContains(fs, "rain"), AnyDescriptionContains(fs, "snow"));
  }

  /** Optional lines taken from four different lines, in their order, are the
      lines of the four that occur among them. */
  lemma OptionalLinesInOrder<T>(a: T, b: T, c: T, d: T, x: bool, y: bool, u: bool, v: bool)
    requires a != b && a != c && a != d && b != c && b != d && c != d
    ensures var r := (if x then [a] else if y then [b] else []) + (if u then [c] else []) + (if v then [d] else []);
      r == (if a in r then [a] else []) + (if b in r then [b] else []) + (if c in r then [c] else []) + (if d in r then [d] else [])
  {
    var r := (if x then [a] else if y then [b] else []) + (if u then [c] else []) + (if v then [d] else []);
    assert a in r <==> x;
    assert b in r <==> !x && y;
    assert c in r <==> u;
    assert d in r <==> v;
  }

  /** Never both a cold and a warm line, and never more than three lines. */
  lemma WeatherAdviceBounds(fs: seq<Forecast>)
    ensures |WeatherAdvice(fs)| <= 3
    ensures !(ColdLine in WeatherAdvice(fs) && WarmLine in WeatherAdvice(fs))
  {
    LinesDistinct();
  }

  /** One more forecast extends the sum and the word tests by that forecast. */
  lemma ScanStep(fs: seq<Forecast>, i: nat, word: string)
    requires i < |fs|
    ensures SumTemperatures(fs[..i + 1]) == SumTemperatures(fs[..i]) + fs[i].temperature
    ensures AnyDescriptionContains(fs[..i + 1], word) <==>
              AnyDescriptionContains(fs[..i], word) || Contains(Lower(fs[i].description), word)
  {
    assert fs[..i + 1][..i] == fs[..i];
    if AnyDescriptionContains(fs[..i + 1], word) && !Contains(Lower(fs[i].description), word) {
      var k :| 0 <= k < i + 1 && Contains(Lower(fs[..i + 1][k].description), word);
      assert fs[..i][k] == fs[k];
    }
    if AnyDescriptionContains(fs[..i], word) {
      var k :| 0 <= k < i && Contains(Lower(fs[..i][k].description), word);
      assert fs[..i + 1][k] == fs[k];
    }
    if Contains(Lower(fs[i].description), word) {
      assert fs[..i + 1][i] == fs[i];
    }
  }

  /** The scan of `_generate_weather_recommendations`: the temperature sum
      and whether any description mentions rain or snow. */
  method ScanForecasts(fs: seq<Forecast>) returns (total: real, rain: bool, snow: bool)
    ensures total == SumTemperatures(fs)
    ensures rain <==> AnyDescriptionContains(fs, "rain")
    ensures snow <==> AnyDescriptionContains(fs, "snow")
  {
    total, rain, snow := 0.0, false, false;
    var i := 0;
    while i < |fs|
      invariant 0 <= i <= |fs|
      invariant total == SumTemperatures(fs[..i])
      invariant rain <==> AnyDescriptionContains(fs[..i], "rain")
      invariant snow <==> AnyDescriptionContains(fs[..i], "snow")
    {
      ScanStep(fs, i, "rain");
      ScanStep(fs, i, "snow");
      var desc := Lower(fs[i].description);
      total := total + fs[i].temperature;
      rain := rain || Contains(desc, "rain");
      snow := snow || Contains(desc, "snow");
      i := i + 1;
    }
    assert fs[..i] == fs;
  }

  /** `_generate_weather_recommendations`: one pass over the forecasts for
      the temperature sum and the rain and snow tests, then the lines. */
  method GenerateWeatherRecommendations(fs: seq<Forecast>) returns (recs: seq<string>)
    ensures recs == WeatherAdvice(fs)
  {
    if |fs| == 0 {
      return [CheckWeatherLine];
    }
    var total, rain, snow := ScanForecasts(fs);
    var avg := total / |fs| as real;
    recs := [];
    if avg < 10.0 {
      recs := recs + [ColdLine];
    } else if avg > 25.0 {
      recs := recs + [WarmLine];
    }
    ghost var temperature := recs;
    if rain {
      recs := recs + [RainLine];
    }
    ghost var wet := recs;
    if snow {
      recs := recs + [SnowLine];
    }
    assert avg == AverageTemperature(fs);
    assert temperature == if avg < 10.0 then [ColdLine] else if avg > 25.0 then [WarmLine] else [];
    assert wet == temperature + if rain then [RainLine] else [];
    assert recs == wet + if snow then [SnowLine] else [];
  }

  /** What processing a weather body yields: its forecasts with their
      advice, or the fallback record when processing raises. */
  function ProcessedWeather(body: WeatherBody): WeatherReport
  {
    match body
    case ForecastList(fs) => WeatherReport(fs, WeatherAdvice(fs))
    case MalformedWeather => MockWeather()
  }

  // ---------------------------------------------------------------------------
  // Places and transport post-processing
  // ---------------------------------------------------------------------------

  const MaxPlaces: nat := 10

  /** A provider place with its missing fields defaulted to '' / 0 / []. */
  function ToPlace(p: RawPlace): (q: Place)
    ensures q.name == (if p.name.Some? then p.name.value else "")
    ensures q.rating == (if p.rating.Some? then p.rating.value else 0.0)
    ensures q.priceLevel == (if p.priceLevel.Some? then p.priceLevel.value else 0)
    ensures q.types == (if p.types.Some? then p.types.value else [])
    ensures q.vicinity == (if p.vicinity.Some? then p.vicinity.value else "")
    ensures q.placeId == (if p.placeId.Some? then p.placeId.value else "")
  {
    Place(
      if p.name.Some? then p.name.value else "",
      if p.rating.Some? then p.rating.value else 0.0,
      if p.priceLevel.Some? then p.priceLevel.value else 0,
      if p.types.Some? then p.types.value else [],
      if p.vicinity.Some? then p.vicinity.value else "",
      if p.placeId.Some? then p.placeId.value else "")
  }

  /** What processing a places body yields: the first ten results, in order,
      each defaulted; no results list gives none; a body whose processing
      raises gives the fallback list. */
  function ProcessedPlaces(body: PlacesBody): (r: seq<Place>)
    ensures body.PlacesResults? ==> |r| <= MaxPlaces
    ensures body.PlacesResults? && body.results.Some? ==>
      |r| == Min(|body.results.value|, MaxPlaces) &&
      forall i :: 0 <= i < |r| ==> r[i] == ToPlace(body.results.value[i])
    ensures body.PlacesResults? && body.results.None? ==> r == []
    ensures body.MalformedPlaces? ==> r == MockPlaces()
  {
    match body
    case MalformedPlaces => MockPlaces()
    case PlacesResults(None) => []
    case PlacesResults(Some(rs)) =>
      seq(Min(|rs|, MaxPlaces), i requires 0 <= i < Min(|rs|, MaxPlaces) => ToPlace(rs[i]))
  }

  /** `_process_places_data`: appends one defaulted record per result, for
      at most the first ten. */
  method ProcessPlacesData(body: PlacesBody) returns (places: seq<Place>)
    ensures places == ProcessedPlaces(body)
  {
    match body
    case MalformedPlaces =>
      places := MockPlaces();
    case PlacesResults(results) =>
      var rs := if results.Some? then results.value else [];
      var top := rs[..Min(|rs|, MaxPlaces)];
      places := [];
      var i := 0;
      while i < |top|
        invariant 0 <= i <= |top|
        invariant |places| == i
        invariant forall k :: 0 <= k < i ==> places[k] == ToPlace(top[k])
      {
        places := places + [ToPlace(top[i])];
        i := i + 1;
      }
  }

  const Unknown: string := "Unknown"

  /** `_process_transportation_data`: the first element of the first row,
      with "Unknown" for a missing duration, distance or status. A missing
      rows list or elements list counts as one empty record; an empty rows
      list raises and an empty elements list falls back, both to the fixed
      transport record, as does any other body whose processing raises. */
  function ProcessTransportationData(body: TransportBody): (t: Transport)
    ensures body.MalformedTransport? ==> t == MockTransportation()
    ensures body.TransportBody? && body.rows.Some? && body.rows.value == [] ==> t == MockTransportation()
    ensures body.TransportBody? && body.rows.None? ==> t == Transport(Unknown, Unknown, Unknown)
    ensures body.TransportBody? && body.rows.Some? && body.rows.value != [] ==>
      var row := body.rows.value[0];
      && (row.elements.None? ==> t == Transport(Unknown, Unknown, Unknown))
      && (row.elements.Some? && row.elements.value == [] ==> t == MockTransportation())
      && (row.elements.Some? && row.elements.value != [] ==>
            var e := row.elements.value[0];
            && t.duration == (if e.durationText.Some? then e.durationText.value else Unknown)
            && t.distance == (if e.distanceText.Some? then e.distanceText.value else Unknown)
            && t.status == (if e.status.Some? then e.status.value else Unknown))
  {
    if body.MalformedTransport? then MockTransportation()
    else
      var rows := if body.rows.Some? then body.rows.value else [TransportRow(None)];
      if rows == [] then MockTransportation()  // rows[0] raises IndexError
      else
        var elements := if rows[0].elements.Some? then rows[0].elements.value
                        else [TransportElement(None, None, None)];
        if elements == [] then MockTransportation()
        else
          var e := elements[0];
          Transport(
            if e.durationText.Some? then e.durationText.value else Unknown,
            if e.distanceText.Some? then e.distanceText.value else Unknown,
            if e.status.Some? then e.status.value else Unknown)
  }

  /** `get_transportation_info`: never raises; without a key, on an
      exception or on a non-200 status it is the fixed transport record. */
  function GetTransportationInfo(origin: string, destination: string, apiKeyConfigured: bool,
                                 response: HttpOutcome<TransportBody>): (t: Transport)
    ensures apiKeyConfigured && response.Response? && response.status == 200 ==>
              t == ProcessTransportationData(response.body)
    ensures !(apiKeyConfigured && response.Response? && response.status == 200) ==>
              t == MockTransportation()
  {
    if !apiKeyConfigured then MockTransportation()
    else match response
      case NetworkError(_) => MockTransportation()
      case Response(status, body) =>
        if status == 200 then ProcessTransportationData(body) else MockTransportation()
  }

  // ---------------------------------------------------------------------------
  // The service and its memo tables
  // ---------------------------------------------------------------------------

  function WeatherKey(destination: string, startDate: string): string
  {
    destination + "_" + startDate
  }

  function PlacesKey(destination: string, placeType: string): string
  {
    destination + "_" + placeType
  }

  class ExternalApiService {
    var weatherCache: map<string, WeatherReport>
    var placesCache: map<string, seq<Place>>

    constructor ()
      ensures weatherCache == map[] && placesCache == map[]
    {
      weatherCache := map[];
      placesCache := map[];
    }

    /** A memo hit is returned as stored. Otherwise only an HTTP-200 answer
        (with a key configured) is processed, stored and returned; a missing
        key, an exception or another status returns the fallback record and
        stores nothing. Never raises. */
    method GetWeatherForecast(destination: string, startDate: string, apiKeyConfigured: bool,
                              response: HttpOutcome<WeatherBody>) returns (r: WeatherReport)
      modifies this
      ensures placesCache == old(placesCache)
      ensures WeatherKey(destination, startDate) in old(weatherCache) ==>
                r == old(weatherCache)[WeatherKey(destination, startDate)] && weatherCache == old(weatherCache)
      ensures WeatherKey(destination, startDate) !in old(weatherCache) ==>
                if apiKeyConfigured && response.Response? && response.status == 200 then
                  r == ProcessedWeather(response.body) &&
                  weatherCache == old(weatherCache)[WeatherKey(destination, startDate) := r]
                else
                  r == MockWeather() && weatherCache == old(weatherCache)
    {
      var cacheKey := WeatherKey(destination, startDate);
      if cacheKey in weatherCache {
        return weatherCache[cacheKey];
      }
      var _ := ParseDestination(destination);
      if !apiKeyConfigured {
        return MockWeather();
      }
      match response
      case NetworkError(_) =>
        r := MockWeather();
      case Response(status, body) =>
        if status == 200 {
          if body.ForecastList? {
            var recs := GenerateWeatherRecommendations(body.forecasts);
            r := WeatherReport(body.forecasts, recs);
          } else {
            r := MockWeather();  // processing raised; the fallback is still stored
          }
          weatherCache := weatherCache[cacheKey := r];
        } else {
          r := MockWeather();
        }
    }

    /** A memo hit is returned as stored. Otherwise a missing key, missing
        coordinates, an exception or a non-200 status return the fallback
        list and store nothing; an HTTP-200 answer is processed, stored and
        returned. Never raises. */
    method GetPlacesInfo(destination: string, placeType: string, apiKeyConfigured: bool,
                         coordinates: Option<Coordinates>, response: HttpOutcome<PlacesBody>)
      returns (r: seq<Place>)
      modifies this
      ensures weatherCache == old(weatherCache)
      ensures PlacesKey(destination, placeType) in old(placesCache) ==>
                r == old(placesCache)[PlacesKey(destination, placeType)] && placesCache == old(placesCache)
      ensures PlacesKey(destination, placeType) !in old(placesCache) ==>
                if apiKeyConfigured && coordinates.Some? && response.Response? && response.status == 200 then
                  r == ProcessedPlaces(response.body) &&
                  placesCache == old(placesCache)[PlacesKey(destination, placeType) := r]
                else
                  r == MockPlaces() && placesCache == old(placesCache)
    {
      var cacheKey := PlacesKey(destination, placeType);
      if cacheKey in placesCache {
        return placesCache[cacheKey];
      }
      if !apiKeyConfigured {
        return MockPlaces();
      }
      if coordinates.None? {
        return MockPlaces();
      }
      match response
      case NetworkError(_) =>
        r := MockPlaces();
      case Response(status, body) =>
        if status == 200 {
          r := ProcessPlacesData(body);
          placesCache := placesCache[cacheKey := r];
        } else {
          r := MockPlaces();
        }
    }
  }

  /** A second weather lookup for the same destination and date returns the
      first answer, whatever the network does the second time. */
  method WeatherLookupIsMemoised(destination: string, startDate: string, body: WeatherBody,
                                 second: HttpOutcome<WeatherBody>) returns (r1: WeatherReport, r2: WeatherReport)
    ensures r1 == ProcessedWeather(body) && r2 == r1
  {
    var service := new ExternalApiService();
    r1 := service.GetWeatherForecast(destination, startDate, true, Response(200, body));
    r2 := service.GetWeatherForecast(destination, startDate, true, second);
  }

  /** A failed weather lookup is not memoised: the next one reaches the
      network again. */
  method FailedWeatherLookupIsRetried(destination: string, startDate: string, body: WeatherBody)
    returns (r1: WeatherReport, r2: WeatherReport)
    ensures r1 == MockWeather() && r2 == ProcessedWeather(body)
  {
    var service := new ExternalApiService();
    r1 := service.GetWeatherForecast(destination, startDate, true, Response(503, body));
    r2 := service.GetWeatherForecast(destination, startDate, true, Response(200, body));
  }
}
