/** `components/LocationCard.tsx`: the place heading and the rounded temperature. */
module LocationCard {
  import opened Wrappers
  import opened JsMath
  import opened JsString
  import opened TemperatureUtils

  /** `[locationName, state, country].filter(Boolean).join(", ")`. */
  function LocationDisplay(locationName: string, state: Option<string>, country: Option<string>): string {
    Join(FilterTruthy([Some(locationName), state, country]), ", ")
  }

  /** Absent and empty parts drop out; present ones keep the order name, state,
    * country with ", " between neighbours only. */
  lemma LocationDisplayShape(name: string, state: Option<string>, country: Option<string>)
    ensures var parts := FilterTruthy([Some(name), state, country]);
      LocationDisplay(name, state, country) == Join(parts, ", ")
      && (forall k :: 0 <= k < |parts| ==> parts[k] != "")
      && parts == (if name != "" then [name] else [])
                  + (if state.Some? && state.value != "" then [state.value] else [])
                  + (if country.Some? && country.value != "" then [country.value] else [])
  {
    FilterTruthyAppend([Some(name)], [state, country]);
    FilterTruthyAppend([state], [country]);
    assert [Some(name), state, country] == [Some(name)] + [state, country];
    assert [state, country] == [state] + [country];
  }

  /** A non-empty name always comes first, and alone it is the whole heading. */
  lemma LocationDisplayStartsWithName(name: string, state: Option<string>, country: Option<string>)
    requires name != ""
    ensures var d := LocationDisplay(name, state, country); |name| <= |d| && d[..|name|] == name
    ensures (state.None? || state.value == "") && (country.None? || country.value == "") ==>
      LocationDisplay(name, state, country) == name
  {
    LocationDisplayShape(name, state, country);
    JoinEnds(FilterTruthy([Some(name), state, country]), ", ");
  }

  /** With all three parts present: "name, state, country". */
  lemma LocationDisplayFull(name: string, state: string, country: string)
    requires name != "" && state != "" && country != ""
    ensures LocationDisplay(name, Some(state), Some(country)) == name + ", " + state + ", " + country
  {
    LocationDisplayShape(name, Some(state), Some(country));
    var parts := [name, state, country];
    assert FilterTruthy([Some(name), Some(state), Some(country)]) == parts;
    assert parts[1..] == [state, country];
    assert [state, country][1..] == [country];
    assert Join([state, country], ", ") == state + ", " + country;
  }

  /** The heading is empty exactly when every part is absent or empty. */
  lemma LocationDisplayEmptyIff(name: string, state: Option<string>, country: Option<string>)
    ensures LocationDisplay(name, state, country) == ""
      <==> name == "" && (state.None? || state.value == "") && (country.None? || country.value == "")
  {
    LocationDisplayShape(name, state, country);
    JoinEmptyIff(FilterTruthy([Some(name), state, country]), ", ");
  }

  /** `{Math.round(convertTemperature(temp, unit))}°`, followed by the unit letter:
    * the card shows the same text as the shared formatter. */
  function CardTemperature(temperature: real, unit: TemperatureUnit): (r: string)
    ensures r + [unit.Letter()] == FormatTemperature(temperature, unit)
  {
    IntToString(Round(ConvertTemperature(temperature, unit))) + "°"
  }
}
