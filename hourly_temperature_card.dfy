/** `components/HourlyTemperatureCard.tsx`: four time slots of the hourly list,
  * plotted on a 400 x 100 chart and labelled underneath. */
module HourlyTemperatureCard {
  import opened Wrappers
  import opened JsMath
  import opened JsArray
  import opened JsString
  import opened WeatherTypes
  import opened TemperatureUtils

  datatype TimeSlot = TimeSlot(name: string, hour: nat, data: Option<HourlyTemperature>)

  /** The hours the four slots read, in slot order. */
  const SlotHours: seq<nat> := [6, 12, 18, 0]
  const SlotLabels: seq<string> := ["Morning", "Afternoon", "Evening", "Night"]

  /** `getTimeSlot`: Morning, Afternoon, Evening, Night from hours 6, 12, 18 and 0;
    * an hour past the end of the list reads `undefined`. */
  function GetTimeSlots(hourlyData: seq<HourlyTemperature>): (slots: seq<TimeSlot>)
    ensures |slots| == 4
    ensures forall i :: 0 <= i < 4 ==>
      slots[i].name == SlotLabels[i] && slots[i].hour == SlotHours[i]
      && slots[i].data == At(hourlyData, SlotHours[i])
  {
    [TimeSlot("Morning", 6, At(hourlyData, 6)),
     TimeSlot("Afternoon", 12, At(hourlyData, 12)),
     TimeSlot("Evening", 18, At(hourlyData, 18)),
     TimeSlot("Night", 0, At(hourlyData, 0))]
  }

  /** `slot.data?.temperature || 0`: a missing slot or reading is plotted at 0. */
  function PlottedTemperature(slot: TimeSlot): (r: real)
    ensures slot.data.Some? && slot.data.value.temperature.Some? ==> r == slot.data.value.temperature.value
    ensures slot.data.None? || slot.data.value.temperature.None? ==> r == 0.0
  {
    match slot.data
    case Some(h) => h.temperature.GetOr(0.0)
    case None => 0.0
  }

  function Temps(slots: seq<TimeSlot>): (temps: seq<real>)
    ensures |temps| == |slots|
    ensures forall i :: 0 <= i < |slots| ==> temps[i] == PlottedTemperature(slots[i])
  {
    seq(|slots|, i requires 0 <= i < |slots| => PlottedTemperature(slots[i]))
  }

  /** `Math.min(...temps)` over a non-empty list. */
  function MinOf(temps: seq<real>): (m: real)
    requires |temps| > 0
    ensures m in temps
    ensures forall t :: t in temps ==> m <= t
  {
    if |temps| == 1 then temps[0]
    else
      assert temps == [temps[0]] + temps[1..];
      Min(temps[0], MinOf(temps[1..]))
  }

  /** `Math.max(...temps)` over a non-empty list. */
  function MaxOf(temps: seq<real>): (m: real)
    requires |temps| > 0
    ensures m in temps
    ensures forall t :: t in temps ==> t <= m
  {
    if |temps| == 1 then temps[0]
    else
      assert temps == [temps[0]] + temps[1..];
      Max(temps[0], MaxOf(temps[1..]))
  }

  /** `maxTemp - minTemp || 1`: never zero, so the y formula is defined. */
  function ChartRange(minTemp: real, maxTemp: real): (range: real)
    requires minTemp <= maxTemp
    ensures range > 0.0
    ensures minTemp < maxTemp ==> range == maxTemp - minTemp
    ensures minTemp == maxTemp ==> range == 1.0
  {
    if maxTemp - minTemp != 0.0 then maxTemp - minTemp else 1.0
  }

  /** `(index * 400) / 3`. */
  function PointX(index: nat): real {
    (index as real * 400.0) / 3.0
  }

  /** `100 - ((temp - minTemp) / range) * 80 - 10`. */
  function PointY(temp: real, minTemp: real, range: real): real
    requires range > 0.0
  {
    100.0 - ((temp - minTemp) / range) * 80.0 - 10.0
  }

  datatype Point = Point(x: real, y: real)

  /** The plotted polyline: one point per slot. */
  function ChartPoints(hourlyData: seq<HourlyTemperature>): (points: seq<Point>)
    ensures |points| == 4
  {
    var temps := Temps(GetTimeSlots(hourlyData));
    var lo := MinOf(temps);
    var hi := MaxOf(temps);
    var range := ChartRange(lo, hi);
    seq(4, i requires 0 <= i < 4 => Point(PointX(i), PointY(temps[i], lo, range)))
  }

  /** A temperature between the extremes lands between y = 10 and y = 90. */
  lemma {:induction false} PointYBounds(temp: real, lo: real, hi: real)
    requires lo <= temp <= hi
    ensures 10.0 <= PointY(temp, lo, ChartRange(lo, hi)) <= 90.0
    ensures temp == lo ==> PointY(temp, lo, ChartRange(lo, hi)) == 90.0
    ensures temp == hi && lo < hi ==> PointY(temp, lo, ChartRange(lo, hi)) == 10.0
  {
    var range := ChartRange(lo, hi);
    var f := (temp - lo) / range;
    if lo < hi {
      assert 0.0 <= temp - lo <= range;
      assert 0.0 <= f <= 1.0 by {
        assert f * range == temp - lo;
      }
    } else {
      assert temp - lo == 0.0;
      assert f == 0.0;
    }
  }

  /** Every point lies inside the drawing area: x on 0, 400/3, 800/3, 400 in slot
    * order, y within [10, 90]; the coldest slot sits at y = 90 and, unless all four
    * are equal, the warmest at y = 10. */
  lemma ChartPointsInBounds(hourlyData: seq<HourlyTemperature>)
    ensures var points := ChartPoints(hourlyData);
      points[0].x == 0.0 && points[1].x == 400.0 / 3.0 && points[2].x == 800.0 / 3.0 && points[3].x == 400.0
      && (forall i :: 0 <= i < 4 ==> 10.0 <= points[i].y <= 90.0)
      && (exists i :: 0 <= i < 4 && points[i].y == 90.0)
  {
    var temps := Temps(GetTimeSlots(hourlyData));
    var lo := MinOf(temps);
    var hi := MaxOf(temps);
    var points := ChartPoints(hourlyData);
    forall i | 0 <= i < 4 ensures 10.0 <= points[i].y <= 90.0 {
      assert temps[i] in temps;
      PointYBounds(temps[i], lo, hi);
    }
    var k :| 0 <= k < 4 && temps[k] == lo;
    PointYBounds(temps[k], lo, hi);
    assert points[k].y == 90.0;
  }

  /** When the four temperatures differ, some point is at the top line y = 10. */
  lemma ChartSpansWhenUneven(hourlyData: seq<HourlyTemperature>)
    requires var temps := Temps(GetTimeSlots(hourlyData)); MinOf(temps) < MaxOf(temps)
    ensures exists i :: 0 <= i < 4 && ChartPoints(hourlyData)[i].y == 10.0
  {
    var temps := Temps(GetTimeSlots(hourlyData));
    var lo := MinOf(temps);
    var hi := MaxOf(temps);
    var k :| 0 <= k < 4 && temps[k] == hi;
    PointYBounds(temps[k], lo, hi);
    assert ChartPoints(hourlyData)[k].y == 10.0;
  }

  // ---------------------------------------------------------------- labels

  /** The degree sign as the file actually holds it: its UTF-8 bytes read once more
    * as Latin-1, which renders as "Â°". */
  const MisencodedDegree: string := "\U{00C2}\U{00B0}"

  /** The label under a slot exactly as written: "N/A" without data; otherwise the
    * rounded converted temperature followed by the mis-encoded sign ("NaN" when the
    * entry has no reading, as `Math.round(undefined)` gives). */
  function SlotLabelAsWritten(slot: TimeSlot, unit: TemperatureUnit): string {
    match slot.data
    case None => "N/A"
    case Some(h) =>
      match h.temperature
      case Some(t) => IntToString(Round(ConvertTemperature(t, unit))) + MisencodedDegree
      case None => "NaN" + MisencodedDegree
  }

  /** The label with the degree sign every other component prints. */
  function SlotLabel(slot: TimeSlot, unit: TemperatureUnit): string {
    match slot.data
    case None => "N/A"
    case Some(h) =>
      match h.temperature
      case Some(t) => IntToString(Round(ConvertTemperature(t, unit))) + "°"
      case None => "NaN°"
  }

  /** The written label of a slot with a reading shows a stray "Â" before the degree sign. */
  lemma SlotLabelAsWrittenIsGarbled(slot: TimeSlot, unit: TemperatureUnit)
    requires slot.data.Some? && slot.data.value.temperature.Some?
    ensures var s := SlotLabelAsWritten(slot, unit);
      |s| >= 2 && s[|s| - 2] == '\U{00C2}' && s[|s| - 1] == '°'
    ensures SlotLabelAsWritten(slot, unit) != SlotLabel(slot, unit)
  {
    var s := SlotLabelAsWritten(slot, unit);
    var c := SlotLabel(slot, unit);
    assert |s| == |c| + 1;
  }

  /** A slot is "N/A" exactly when its hour is missing; otherwise its label is the
    * number the temperature formatter shows for the same reading, then "°". */
  lemma SlotLabelMatchesFormatter(slot: TimeSlot, unit: TemperatureUnit)
    ensures SlotLabel(slot, unit) == "N/A" <==> slot.data.None?
    ensures slot.data.Some? && slot.data.value.temperature.Some? ==>
      SlotLabel(slot, unit) + [unit.Letter()] == FormatTemperature(slot.data.value.temperature.value, unit)
  {
    if slot.data.Some? {
      var s := SlotLabel(slot, unit);
      if slot.data.value.temperature.Some? {
        var n := Round(ConvertTemperature(slot.data.value.temperature.value, unit));
        IntToStringRoundTrip(n);
        assert s[|s| - 1] == '°';
      } else {
        assert s[0] == 'N' && s[1] == 'a';
      }
    }
  }
}
