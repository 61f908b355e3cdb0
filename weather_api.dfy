/** `lib/weatherApi.ts`: the geocoding search and the reshaping of the forecast
  * provider's column arrays into the dashboard's records. The HTTP exchange is an
  * input: a `Reply` says how the `fetch` ended and carries the decoded payload. */
module WeatherApi {
  import opened Wrappers
  import opened JsArray
  import opened WeatherTypes

  /** How a `fetch` ended: the promise rejected, the status was not ok, or an ok
    * status with its decoded JSON body. */
  datatype Reply<T> = Rejected | NotOk(status: int) | Ok(payload: T)

  /** What a failed call throws: the exception of a rejected `fetch` or of a body
    * that would not decode, passed on unchanged, or the module's own `Error`. */
  datatype Thrown = PassedOn | Message(text: string)

  // ---------------------------------------------------------------- geocoding search

  /** The geocoder is asked for at most this many matches. */
  const GeocodeCount: nat := 5

  datatype GeocodeRequest = GeocodeRequest(name: string, count: nat, language: string, format: string)

  function GeocodeQuery(query: string): (r: GeocodeRequest)
    ensures r.name == query && r.count == 5
  {
    GeocodeRequest(query, GeocodeCount, "en", "json")
  }

  /** The geocoder's body: `results` is absent when nothing matched. */
  datatype GeocodePayload = GeocodePayload(results: Option<seq<GeocodingResult>>)

  const SearchFailed: string := "Failed to search location"

  /** `searchLocation`: a failed exchange throws, with the module's own message only
    * for a non-ok status; an ok body without `results` is `[]`. */
  function SearchLocation(reply: Reply<GeocodePayload>): (r: Result<seq<GeocodingResult>, Thrown>)
    ensures r.Failure? <==> !reply.Ok?
    ensures reply.NotOk? ==> r == Failure(Message(SearchFailed))
    ensures reply.Rejected? ==> r == Failure(PassedOn)
    ensures reply.Ok? && reply.payload.results.None? ==> r == Success([])
    ensures reply.Ok? && reply.payload.results.Some? ==> r == Success(reply.payload.results.value)
  {
    match reply
    case Ok(payload) => Success(payload.results.GetOr([]))
    case NotOk(_) => Failure(Message(SearchFailed))
    case Rejected => Failure(PassedOn)
  }

  // ---------------------------------------------------------------- forecast request

  /** Forecast days asked for: today plus the seven days the dashboard shows. */
  const ForecastDays: nat := 8
  /** Forecast hours asked for. */
  const ForecastHours: nat := 24

  datatype ForecastRequest = ForecastRequest(
    latitude: real,
    longitude: real,
    current: seq<string>,
    hourly: seq<string>,
    daily: seq<string>,
    timezone: string,
    forecastDays: nat,
    forecastHours: nat)

  function ForecastQuery(latitude: real, longitude: real): (r: ForecastRequest)
    ensures r.latitude == latitude && r.longitude == longitude
    ensures r.forecastDays == 8 && r.forecastHours == 24
  {
    ForecastRequest(
      latitude, longitude,
      ["temperature_2m", "relative_humidity_2m", "apparent_temperature", "weather_code",
       "wind_speed_10m", "wind_direction_10m", "uv_index", "visibility"],
      ["temperature_2m", "weather_code"],
      ["weather_code", "temperature_2m_max", "temperature_2m_min", "precipitation_sum", "sunrise", "sunset"],
      "auto", ForecastDays, ForecastHours)
  }

  // ---------------------------------------------------------------- forecast payload

  datatype CurrentPayload = CurrentPayload(
    time: string,
    temperature2m: real,
    relativeHumidity2m: real,
    apparentTemperature: real,
    weatherCode: int,
    windSpeed10m: real,
    windDirection10m: real,
    uvIndex: real,
    visibility: real)

  /** Column arrays: entry `i` of every column describes day `i`, day 0 being today. */
  datatype DailyPayload = DailyPayload(
    time: seq<string>,
    weatherCode: seq<int>,
    temperature2mMax: seq<real>,
    temperature2mMin: seq<real>,
    precipitationSum: seq<real>,
    sunrise: seq<string>,
    sunset: seq<string>)

  /** Column arrays: entry `i` of every column describes hour `i`. */
  datatype HourlyPayload = HourlyPayload(
    time: seq<string>,
    temperature2m: seq<real>,
    weatherCode: seq<int>)

  datatype ForecastPayload = ForecastPayload(
    current: CurrentPayload,
    hourly: HourlyPayload,
    daily: DailyPayload)

  // ---------------------------------------------------------------- reshaping

  /** The provider's field names mapped one to one onto the dashboard's. */
  function ReshapeCurrent(c: CurrentPayload): (r: CurrentWeather)
    ensures r.temperature == c.temperature2m && r.humidity == c.relativeHumidity2m
    ensures r.apparentTemperature == c.apparentTemperature && r.weatherCode == c.weatherCode
    ensures r.windSpeed == c.windSpeed10m && r.windDirection == c.windDirection10m
    ensures r.uvIndex == c.uvIndex && r.visibility == c.visibility && r.time == c.time
  {
    CurrentWeather(
      temperature := c.temperature2m,
      weatherCode := c.weatherCode,
      windSpeed := c.windSpeed10m,
      windDirection := c.windDirection10m,
      humidity := c.relativeHumidity2m,
      time := c.time,
      apparentTemperature := c.apparentTemperature,
      uvIndex := c.uvIndex,
      visibility := c.visibility)
  }

  /** `daily.time.slice(1, 8).map((date, index) => ...[index + 1])`: today is dropped
    * and entry `i` is assembled from provider day `i + 1` in every column. */
  function ReshapeDaily(d: DailyPayload): (r: seq<DailyForecast>)
    ensures |r| == if |d.time| <= 1 then 0 else if |d.time| >= 8 then 7 else |d.time| - 1
    ensures forall i :: 0 <= i < |r| ==>
      r[i] == DailyForecast(d.time[i + 1], At(d.temperature2mMax, i + 1), At(d.temperature2mMin, i + 1),
                            At(d.weatherCode, i + 1), At(d.precipitationSum, i + 1))
  {
    var dates := Slice(d.time, 1, 8);
    seq(|dates|, index requires 0 <= index < |dates| =>
      DailyForecast(
        date := dates[index],
        maxTemp := At(d.temperature2mMax, index + 1),
        minTemp := At(d.temperature2mMin, index + 1),
        weatherCode := At(d.weatherCode, index + 1),
        precipitationSum := At(d.precipitationSum, index + 1)))
  }

  /** `hourly.time.slice(0, 24).map((time, index) => ...[index])`: the first 24 hours,
    * entry `i` assembled from provider hour `i` in every column. */
  function ReshapeHourly(h: HourlyPayload): (r: seq<HourlyTemperature>)
    ensures |r| == if |h.time| >= 24 then 24 else |h.time|
    ensures forall i :: 0 <= i < |r| ==>
      r[i] == HourlyTemperature(h.time[i], At(h.temperature2m, i), At(h.weatherCode, i))
  {
    var times := Slice(h.time, 0, 24);
    seq(|times|, index requires 0 <= index < |times| =>
      HourlyTemperature(
        time := times[index],
        temperature := At(h.temperature2m, index),
        weatherCode := At(h.weatherCode, index)))
  }

  /** The body of `getWeatherData` after a successful response. */
  function Reshape(data: ForecastPayload, latitude: real, longitude: real, locationName: string,
                   country: Option<string>, state: Option<string>): (r: WeatherData)
    ensures r.location == Location(locationName, latitude, longitude, country, state)
    ensures r.todayOverview.sunrise == At(data.daily.sunrise, 0)
    ensures r.todayOverview.sunset == At(data.daily.sunset, 0)
  {
    WeatherData(
      current := ReshapeCurrent(data.current),
      daily := ReshapeDaily(data.daily),
      hourly := ReshapeHourly(data.hourly),
      location := Location(locationName, latitude, longitude, country, state),
      todayOverview := TodayOverview(At(data.daily.sunrise, 0), At(data.daily.sunset, 0)))
  }

  const WeatherFailed: string := "Failed to fetch weather data"

  /** `getWeatherData` with the exchange for `ForecastQuery(latitude, longitude)` given. */
  function GetWeatherData(latitude: real, longitude: real, locationName: string,
                          country: Option<string>, state: Option<string>,
                          reply: Reply<ForecastPayload>): (r: Result<WeatherData, Thrown>)
    ensures r.Failure? <==> !reply.Ok?
    ensures reply.NotOk? ==> r == Failure(Message(WeatherFailed))
    ensures reply.Rejected? ==> r == Failure(PassedOn)
    ensures reply.Ok? ==> r == Success(Reshape(reply.payload, latitude, longitude, locationName, country, state))
  {
    match reply
    case Ok(data) => Success(Reshape(data, latitude, longitude, locationName, country, state))
    case NotOk(_) => Failure(Message(WeatherFailed))
    case Rejected => Failure(PassedOn)
  }

  // ---------------------------------------------------------------- properties

  /** When the provider answers the request in full (all columns as long as
    * `ForecastDays` and `ForecastHours`), the dashboard gets seven days after today,
    * twenty-four hours, and no field is undefined. */
  lemma FullAnswerIsComplete(data: ForecastPayload)
    requires |data.daily.time| == ForecastDays && |data.hourly.time| == ForecastHours
    requires var d := data.daily;
      |d.weatherCode| == |d.temperature2mMax| == |d.temperature2mMin| == |d.precipitationSum|
      == |d.sunrise| == |d.sunset| == ForecastDays
    requires |data.hourly.temperature2m| == |data.hourly.weatherCode| == ForecastHours
    ensures var daily := ReshapeDaily(data.daily); var hourly := ReshapeHourly(data.hourly);
      |daily| == ForecastDays - 1 && |hourly| == ForecastHours
      && (forall i :: 0 <= i < |daily| ==>
            daily[i].maxTemp.Some? && daily[i].minTemp.Some? && daily[i].weatherCode.Some?
            && daily[i].precipitationSum.Some?)
      && (forall i :: 0 <= i < |hourly| ==> hourly[i].temperature.Some? && hourly[i].weatherCode.Some?)
  {
  }

  /** The seven-day list leaves out exactly the day whose sunrise and sunset the
    * overview shows: when the provider's dates are distinct, no entry is dated today. */
  lemma DailyOmitsToday(d: DailyPayload)
    requires |d.time| > 0
    requires forall i, j :: 0 <= i < j < |d.time| ==> d.time[i] != d.time[j]
    ensures forall e :: e in ReshapeDaily(d) ==> e.date != d.time[0]
    ensures forall e :: e in ReshapeDaily(d) ==> e.date in d.time[1..]
  {
    var r := ReshapeDaily(d);
    forall e | e in r ensures e.date != d.time[0] && e.date in d.time[1..] {
      var i :| 0 <= i < |r| && r[i] == e;
      assert e.date == d.time[i + 1];
      assert d.time[1..][i] == e.date;
    }
  }
}
