/** `components/LocationResults.tsx`: the list of geocoding matches to choose from. */
module LocationResults {
  import opened Wrappers
  import opened JsString
  import opened WeatherTypes

  /** One button: the name, the region line, and the result its click hands on. */
  datatype Entry = Entry(title: string, subtitle: string, choice: GeocodingResult)

  /** `[result.admin1, result.country].filter(Boolean).join(", ")`. */
  function Subtitle(result: GeocodingResult): string {
    Join(FilterTruthy([result.admin1, Some(result.country)]), ", ")
  }

  lemma SubtitleShape(result: GeocodingResult)
    ensures result.admin1.Some? && result.admin1.value != "" && result.country != "" ==>
      Subtitle(result) == result.admin1.value + ", " + result.country
    ensures result.admin1.None? || result.admin1.value == "" ==> Subtitle(result) == result.country
  {
    FilterTruthyAppend([result.admin1], [Some(result.country)]);
    assert [result.admin1, Some(result.country)] == [result.admin1] + [Some(result.country)];
    if result.admin1.Some? && result.admin1.value != "" && result.country != "" {
      var parts := [result.admin1.value, result.country];
      assert FilterTruthy([result.admin1, Some(result.country)]) == parts;
      assert parts[1..] == [result.country];
      assert Join(parts, ", ") == result.admin1.value + ", " + Join([result.country], ", ");
    }
  }

  /** Nothing is rendered for an empty list; otherwise one entry per result, in order. */
  function Render(results: seq<GeocodingResult>): (r: Option<seq<Entry>>)
    ensures r.None? <==> |results| == 0
    ensures r.Some? ==> |r.value| == |results|
    ensures r.Some? ==> forall i :: 0 <= i < |results| ==>
      r.value[i].choice == results[i] && r.value[i].title == results[i].name
      && r.value[i].subtitle == Subtitle(results[i])
  {
    if |results| == 0 then None
    else Some(seq(|results|, i requires 0 <= i < |results| =>
      Entry(results[i].name, Subtitle(results[i]), results[i])))
  }

  /** `onClick={() => onSelect(result)}`: the entry's own result goes to `onSelect`. */
  function Choose(entries: seq<Entry>, index: nat): GeocodingResult
    requires index < |entries|
  {
    entries[index].choice
  }

  /** Clicking the i-th entry selects the i-th result. */
  lemma ChooseSelectsThatResult(results: seq<GeocodingResult>, index: nat)
    requires index < |results|
    ensures Render(results).Some? && index < |Render(results).value|
    ensures Choose(Render(results).value, index) == results[index]
  {
  }
}
