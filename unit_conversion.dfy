/** `lib/unitConversion.ts`: wind speed in km/h or mph. */
module UnitConversion {
  import opened WeatherTypes

  /** Miles per kilometre, as the source writes it. */
  const MilesPerKilometre: real := 0.621371

  function ConvertWindSpeed(kmh: real, unit: UnitSystem): (r: real)
    ensures unit == Metric ==> r == kmh
    ensures unit == Imperial ==> r == kmh * MilesPerKilometre
    ensures unit == Imperial && kmh >= 0.0 ==> 0.0 <= r <= kmh
  {
    if unit == Imperial then kmh * MilesPerKilometre else kmh
  }

  lemma WindSpeedExample()
    ensures ConvertWindSpeed(100.0, Imperial) == 62.1371
  {
  }

  lemma ConvertWindSpeedMonotone(a: real, b: real, unit: UnitSystem)
    requires a <= b
    ensures ConvertWindSpeed(a, unit) <= ConvertWindSpeed(b, unit)
  {
  }

  function GetWindSpeedUnit(unit: UnitSystem): (r: string)
    ensures r == "mph" <==> unit == Imperial
    ensures r != "mph" ==> r == "km/h"
  {
    if unit == Imperial then "mph" else "km/h"
  }
}
