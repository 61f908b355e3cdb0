/** `lib/temperatureUtils.ts`: Celsius to Fahrenheit and the rounded display text. */
module TemperatureUtils {
  import opened JsMath
  import opened JsString

  datatype TemperatureUnit = C | F {
    /** The letter written after the degree sign. */
    function Letter(): char {
      match this
      case C => 'C'
      case F => 'F'
    }
  }

  /** `c * 9 / 5 + 32`. -40 is the only temperature both scales agree on. */
  function CelsiusToFahrenheit(c: real): (f: real)
    ensures (f - 32.0) * 5.0 / 9.0 == c
    ensures f == c <==> c == -40.0
  {
    c * 9.0 / 5.0 + 32.0
  }

  /** Water freezes at 32 and boils at 212 degrees Fahrenheit. */
  lemma FahrenheitLandmarks()
    ensures CelsiusToFahrenheit(0.0) == 32.0
    ensures CelsiusToFahrenheit(100.0) == 212.0
    ensures CelsiusToFahrenheit(-40.0) == -40.0
  {
  }

  lemma FahrenheitStrictlyIncreasing(a: real, b: real)
    requires a < b
    ensures CelsiusToFahrenheit(a) < CelsiusToFahrenheit(b)
  {
  }

  /** Stored temperatures are Celsius; `unit` is the one to display. */
  function ConvertTemperature(t: real, unit: TemperatureUnit): (r: real)
    ensures unit == C ==> r == t
    ensures unit == F ==> r == CelsiusToFahrenheit(t)
  {
    if unit == F then CelsiusToFahrenheit(t) else t
  }

  /** `${Math.round(converted)}°${unit}`. */
  function FormatTemperature(t: real, unit: TemperatureUnit): (r: string)
    ensures |r| >= 3 && r[|r| - 2..] == ['°', unit.Letter()]
  {
    IntToStringRoundTrip(Round(ConvertTemperature(t, unit)));
    IntToString(Round(ConvertTemperature(t, unit))) + "°" + [unit.Letter()]
  }

  /** The formatted text is the rounded converted value, a degree sign and the
    * unit letter, and its number part reads back as that rounded value. */
  lemma FormatTemperatureReadsBack(t: real, unit: TemperatureUnit)
    ensures var s := FormatTemperature(t, unit);
      |s| >= 3 && s[|s| - 2..] == ['°', unit.Letter()]
      && var digits := s[..|s| - 2];
         |digits| > 0 && (if digits[0] == '-' then AllDigits(digits[1..]) else AllDigits(digits))
         && ParseInt(digits) == Round(ConvertTemperature(t, unit))
         && ConvertTemperature(t, unit) - 0.5 < ParseInt(digits) as real <= ConvertTemperature(t, unit) + 0.5
  {
    var n := Round(ConvertTemperature(t, unit));
    IntToStringRoundTrip(n);
    var s := FormatTemperature(t, unit);
    assert s[..|s| - 2] == IntToString(n);
  }
}
