/** The records of `types/weather.ts`. Numbers are exact reals; a field read past
  * the end of a provider column is `undefined` in the source and `None` here. */
module WeatherTypes {
  import opened Wrappers

  datatype CurrentWeather = CurrentWeather(
    temperature: real,
    weatherCode: int,
    windSpeed: real,
    windDirection: real,
    humidity: real,
    time: string,
    apparentTemperature: real,
    uvIndex: real,
    visibility: real)

  datatype DailyForecast = DailyForecast(
    date: string,
    maxTemp: Option<real>,
    minTemp: Option<real>,
    weatherCode: Option<int>,
    precipitationSum: Option<real>)

  datatype HourlyTemperature = HourlyTemperature(
    time: string,
    temperature: Option<real>,
    weatherCode: Option<int>)

  datatype UnitSystem = Metric | Imperial

  datatype Location = Location(
    name: string,
    latitude: real,
    longitude: real,
    country: Option<string>,
    state: Option<string>)

  datatype TodayOverview = TodayOverview(sunrise: Option<string>, sunset: Option<string>)

  datatype WeatherData = WeatherData(
    current: CurrentWeather,
    daily: seq<DailyForecast>,
    hourly: seq<HourlyTemperature>,
    location: Location,
    todayOverview: TodayOverview)

  datatype GeocodingResult = GeocodingResult(
    name: string,
    latitude: real,
    longitude: real,
    country: string,
    admin1: Option<string>,
    featureCode: Option<string>,
    population: Option<int>)
}
