/** `components/TodayOverview.tsx`: the classifiers and displayed values of the
  * overview panel. */
module TodayOverview {
  import opened Wrappers
  import opened JsMath
  import opened WeatherTypes
  import opened TemperatureUtils
  import opened UnitConversion

  // ---------------------------------------------------------------- wind direction

  const Directions: seq<string> := ["N", "NE", "E", "SE", "S", "SW", "W", "NW"]

  /** The `%` of JavaScript: the remainder takes the sign of the dividend. */
  function JsRemainder(a: int, b: int): (r: int)
    requires b > 0
    ensures -b < r < b
    ensures a >= 0 ==> r == a % b
    ensures a < 0 ==> r <= 0 && r == a + b * ((-a) / b)
  {
    if a >= 0 then a % b else -((-a) % b)
  }

  /** `directions[Math.round(degrees / 45) % 8]`; a negative index reads `undefined`. */
  function GetWindDirection(degrees: real): (r: Option<string>)
    ensures degrees >= 0.0 ==> r.Some?
  {
    var index := JsRemainder(Round(degrees / 45.0), 8);
    if 0 <= index < 8 then Some(Directions[index]) else None
  }

  /** Each compass point owns the 45-degree sector centred on it; a bearing on the
    * boundary between two sectors goes to the clockwise one. Sector 8 is north's
    * sector one turn on, from 337.5 up to 382.5 degrees. */
  lemma {:induction false} WindDirectionSector(degrees: real, k: nat)
    requires 0 <= k <= 8
    requires degrees >= 0.0
    requires 45.0 * k as real - 22.5 <= degrees < 45.0 * k as real + 22.5
    ensures GetWindDirection(degrees) == Some(Directions[k % 8])
  {
    assert k as real - 0.5 <= degrees / 45.0 < k as real + 0.5;
    assert Round(degrees / 45.0) == k;
  }

  /** The compass point repeats every full turn. */
  lemma {:induction false} WindDirectionPeriodic(degrees: real)
    requires degrees >= 0.0
    ensures GetWindDirection(degrees + 360.0) == GetWindDirection(degrees)
  {
    assert (degrees + 360.0) / 45.0 == degrees / 45.0 + 8.0;
    assert Round(degrees / 45.0 + 8.0) == Round(degrees / 45.0) + 8;
  }

  lemma WindDirectionLandmarks()
    ensures GetWindDirection(0.0) == Some("N")
    ensures GetWindDirection(360.0) == Some("N")
    ensures GetWindDirection(22.5) == Some("NE")
    ensures GetWindDirection(350.0) == Some("N")
    ensures GetWindDirection(-45.0) == None
  {
    WindDirectionSector(350.0, 8);
    WindDirectionSector(0.0, 0);
    WindDirectionPeriodic(0.0);
    WindDirectionSector(22.5, 1);
    assert Round(-45.0 / 45.0) == -1;
  }

  // ---------------------------------------------------------------- UV index

  datatype UvInfo = UvInfo(level: string, color: string)

  /** The colour class each UV band is shown in. */
  function UvColor(level: string): string {
    match level
    case "Low" => "text-green-500"
    case "Moderate" => "text-yellow-500"
    case "High" => "text-orange-500"
    case "Very High" => "text-red-500"
    case _ => "text-purple-500"
  }

  /** Position of a UV band on the scale, from 0 (Low) to 4 (Extreme). */
  function UvRank(level: string): nat {
    match level
    case "Low" => 0
    case "Moderate" => 1
    case "High" => 2
    case "Very High" => 3
    case _ => 4
  }

  function GetUVLevel(uvIndex: real): (r: UvInfo)
    ensures r.level == "Low" <==> uvIndex <= 2.0
    ensures r.level == "Moderate" <==> 2.0 < uvIndex <= 5.0
    ensures r.level == "High" <==> 5.0 < uvIndex <= 7.0
    ensures r.level == "Very High" <==> 7.0 < uvIndex <= 10.0
    ensures r.level == "Extreme" <==> uvIndex > 10.0
    ensures r.color == UvColor(r.level)
  {
    if uvIndex <= 2.0 then UvInfo("Low", "text-green-500")
    else if uvIndex <= 5.0 then UvInfo("Moderate", "text-yellow-500")
    else if uvIndex <= 7.0 then UvInfo("High", "text-orange-500")
    else if uvIndex <= 10.0 then UvInfo("Very High", "text-red-500")
    else UvInfo("Extreme", "text-purple-500")
  }

  /** A higher index never falls in a lower band. */
  lemma UvLevelMonotone(a: real, b: real)
    requires a <= b
    ensures UvRank(GetUVLevel(a).level) <= UvRank(GetUVLevel(b).level)
  {
  }

  // ---------------------------------------------------------------- visibility

  /** Position of a visibility band, from 0 (Very poor) to 3 (Clear). */
  function VisibilityRank(description: string): nat {
    match description
    case "Clear visibility" => 3
    case "Moderate visibility" => 2
    case "Poor visibility" => 1
    case _ => 0
  }

  /** Bands on the distance in kilometres (the provider reports metres). */
  function GetVisibilityDescription(visibility: real): (r: string)
    ensures r == "Clear visibility" <==> visibility >= 10000.0
    ensures r == "Moderate visibility" <==> 5000.0 <= visibility < 10000.0
    ensures r == "Poor visibility" <==> 2000.0 <= visibility < 5000.0
    ensures r == "Very poor visibility" <==> visibility < 2000.0
  {
    var visibilityKm := visibility / 1000.0;
    if visibilityKm >= 10.0 then "Clear visibility"
    else if visibilityKm >= 5.0 then "Moderate visibility"
    else if visibilityKm >= 2.0 then "Poor visibility"
    else "Very poor visibility"
  }

  lemma VisibilityMonotone(a: real, b: real)
    requires a <= b
    ensures VisibilityRank(GetVisibilityDescription(a)) <= VisibilityRank(GetVisibilityDescription(b))
  {
  }

  // ---------------------------------------------------------------- humidity and feels-like

  function HumidityLabel(humidity: real): (r: string)
    ensures r == "High humidity" <==> humidity >= 70.0
    ensures r == "Comfortable" <==> 40.0 <= humidity < 70.0
    ensures r == "Low humidity" <==> humidity < 40.0
  {
    if humidity >= 70.0 then "High humidity" else if humidity >= 40.0 then "Comfortable" else "Low humidity"
  }

  function Abs(x: real): real { if x < 0.0 then -x else x }

  /** Compares the stored Celsius values, whatever unit is displayed. */
  function FeelsLikeLabel(apparent: real, actual: real): (r: string)
    ensures r == "Feels different than actual" <==> apparent - actual > 3.0 || actual - apparent > 3.0
    ensures r != "Feels different than actual" ==> r == "Similar to actual temperature"
  {
    if Abs(apparent - actual) > 3.0 then "Feels different than actual" else "Similar to actual temperature"
  }

  /** Shown in Fahrenheit, the label's threshold is a gap of 5.4 degrees. */
  lemma FeelsLikeInFahrenheit(apparent: real, actual: real)
    ensures FeelsLikeLabel(apparent, actual) == "Feels different than actual"
        <==> Abs(CelsiusToFahrenheit(apparent) - CelsiusToFahrenheit(actual)) > 5.4
  {
    assert CelsiusToFahrenheit(apparent) - CelsiusToFahrenheit(actual) == (apparent - actual) * 9.0 / 5.0;
  }

  // ---------------------------------------------------------------- the panel

  /** What the panel shows, the locale-formatted sunrise and sunset times aside. */
  datatype OverviewView = OverviewView(
    windSpeed: int,
    windUnit: string,
    windDirection: Option<string>,
    windDegrees: int,
    uvValue: real,
    uv: UvInfo,
    humidity: real,
    humidityLabel: string,
    visibilityKm: real,
    visibilityLabel: string,
    feelsLike: int,
    feelsLikeUnit: char,
    feelsLikeLabel: string)

  function Overview(weather: CurrentWeather, unit: TemperatureUnit, unitSystem: UnitSystem): (v: OverviewView)
    ensures v.windSpeed == Round(ConvertWindSpeed(weather.windSpeed, unitSystem))
    ensures v.feelsLike == Round(ConvertTemperature(weather.apparentTemperature, unit))
    ensures -0.05 <= v.visibilityKm - weather.visibility / 1000.0 <= 0.05
    ensures v.feelsLikeLabel == FeelsLikeLabel(weather.apparentTemperature, weather.temperature)
  {
    OverviewView(
      windSpeed := Round(ConvertWindSpeed(weather.windSpeed, unitSystem)),
      windUnit := GetWindSpeedUnit(unitSystem),
      windDirection := GetWindDirection(weather.windDirection),
      windDegrees := Round(weather.windDirection),
      uvValue := ToFixed1(weather.uvIndex),
      uv := GetUVLevel(weather.uvIndex),
      humidity := weather.humidity,
      humidityLabel := HumidityLabel(weather.humidity),
      visibilityKm := ToFixed1(weather.visibility / 1000.0),
      visibilityLabel := GetVisibilityDescription(weather.visibility),
      feelsLike := Round(ConvertTemperature(weather.apparentTemperature, unit)),
      feelsLikeUnit := unit.Letter(),
      feelsLikeLabel := FeelsLikeLabel(weather.apparentTemperature, weather.temperature))
  }

  /** Switching the display units changes only the unit-dependent numbers: every
    * band and label, the feels-like one included, stays the same. */
  lemma OverviewLabelsIgnoreUnits(weather: CurrentWeather, u1: TemperatureUnit, u2: TemperatureUnit,
                                  s1: UnitSystem, s2: UnitSystem)
    ensures var a := Overview(weather, u1, s1); var b := Overview(weather, u2, s2);
      a.feelsLikeLabel == b.feelsLikeLabel && a.uv == b.uv && a.visibilityLabel == b.visibilityLabel
      && a.humidityLabel == b.humidityLabel && a.windDirection == b.windDirection
  {
  }
}
