/** The detailed focus screen (`components/FocusDetailed.tsx`): the summary texts
    (peak hours in Korean AM/PM form, improvement areas), the focus colour band,
    and the state that one fetch of detailed data fills in, with fixed or random
    fallbacks for every part the answer lacks. The date arithmetic and the random
    counts arrive as parameters. */
module FocusDetailedComponent {
  import opened Common

  // ---------------------------------------------------------------------------
  // Peak hours

  const AmPrefix: string := "오전 "
  const PmPrefix: string := "오후 "
  const HourSuffix: string := "시"

  /** One peak hour: `오전 h시` before noon, `오후 12시` at noon, `오후 (h-12)시`
      after it. */
  function FormatHour(hour: int): (s: string)
    ensures hour < 12 ==> s == AmPrefix + IntToString(hour) + HourSuffix
    ensures hour == 12 ==> s == "오후 12시"
    ensures hour > 12 ==> s == PmPrefix + IntToString(hour - 12) + HourSuffix
  {
    if hour < 12 then AmPrefix + IntToString(hour) + HourSuffix
    else if hour == 12 then "오후 12시"
    else PmPrefix + IntToString(hour - 12) + HourSuffix
  }

  /** Reads a formatted hour of the day back: the half-day prefix, the number, the
      hour suffix. */
  function ReadHour(s: string): Option<int>
  {
    if |s| < 4 || s[|s| - 1..] != HourSuffix then None
    else
      var n := ParseNat(s[3..|s| - 1]);
      if s[..3] == AmPrefix then Some(n)
      else if s[..3] == PmPrefix then Some(if n == 12 then 12 else n + 12)
      else None
  }

  /** Every hour of the day formats to a label that reads back as that hour, so
      different hours never share a label. */
  lemma FormatHourRoundTrip(hour: int)
    requires 0 <= hour < 24
    ensures ReadHour(FormatHour(hour)) == Some(hour)
  {
    var s := FormatHour(hour);
    var digits := if hour < 12 then NatToString(hour) else if hour == 12 then "12" else NatToString(hour - 12);
    if hour == 12 {
      assert s == PmPrefix + "12" + HourSuffix;
      assert NatToString(12) == "12";
    } else if hour < 12 {
      assert s == AmPrefix + digits + HourSuffix;
    } else {
      assert s == PmPrefix + digits + HourSuffix;
    }
    assert s[..3] == (if hour < 12 then AmPrefix else PmPrefix);
    assert s[3..|s| - 1] == digits;
    assert s[|s| - 1..] == HourSuffix;
    ParseNatToString(if hour <= 12 then hour else hour - 12);
  }

  /** Different hours of the day are shown differently. */
  lemma FormatHourInjective(h1: int, h2: int)
    requires 0 <= h1 < 24 && 0 <= h2 < 24 && h1 != h2
    ensures FormatHour(h1) != FormatHour(h2)
  {
    FormatHourRoundTrip(h1);
    FormatHourRoundTrip(h2);
  }

  const DefaultPeakHours: string := "오전 10시, 오후 3시"

  /** `getPeakHoursFormatted`: the formatted hours, in their order, joined with
      ", "; the fixed default for a missing or empty list. */
  function PeakHoursFormatted(peakHours: Option<seq<int>>): (s: string)
    ensures peakHours.None? || |peakHours.value| == 0 ==> s == DefaultPeakHours
  {
    if peakHours.Some? && |peakHours.value| > 0 then
      Join(", ", seq(|peakHours.value|, i requires 0 <= i < |peakHours.value| => FormatHour(peakHours.value[i])))
    else DefaultPeakHours
  }

  /** A non-empty list shows its first hour first and holds every label with one
      separator between neighbours. */
  lemma PeakHoursShape(peakHours: seq<int>)
    requires |peakHours| > 0
    ensures var parts := seq(|peakHours|, i requires 0 <= i < |peakHours| => FormatHour(peakHours[i]));
            && PeakHoursFormatted(Some(peakHours))[..|FormatHour(peakHours[0])|] == FormatHour(peakHours[0])
            && |PeakHoursFormatted(Some(peakHours))| == TotalLength(parts) + (|parts| - 1) * 2
  {
    var parts := seq(|peakHours|, i requires 0 <= i < |peakHours| => FormatHour(peakHours[i]));
    JoinStartsWithFirst(", ", parts);
    JoinLength(", ", parts);
  }

  /** The default text is what the peak hours 10 and 15 would show. */
  lemma DefaultPeakHoursAreTenAndFifteen()
    ensures PeakHoursFormatted(None) == PeakHoursFormatted(Some([10, 15]))
  {
    TenAndFifteenLabels();
    var d := seq(2, i requires 0 <= i < 2 => FormatHour([10, 15][i]));
    assert d == ["오전 10시", "오후 3시"];
    assert Join(", ", d) == d[0] + ", " + Join(", ", d[1..]);
    assert d[1..] == ["오후 3시"];
  }

  lemma TenAndFifteenLabels()
    ensures FormatHour(10) == "오전 10시" && FormatHour(15) == "오후 3시"
  {
    assert IntToString(10) == "10" by {
      assert NatToString(1) == "1";
      assert NatToString(10) == NatToString(1) + [DigitChar(0)];
    }
    assert IntToString(3) == "3";
  }

  // ---------------------------------------------------------------------------
  // Improvement areas

  const DefaultImprovement: string := "규칙적인 수면 패턴 유지하기\n적절한 휴식 시간 배분하기"

  /** `getImprovementMessage`: the areas one per line; the fixed two-line default
      for a missing or empty list. */
  function ImprovementMessage(areas: Option<seq<string>>): (s: string)
    ensures areas.None? || |areas.value| == 0 ==> s == DefaultImprovement
  {
    if areas.Some? && |areas.value| > 0 then Join("\n", areas.value) else DefaultImprovement
  }

  /** The default is exactly the two default areas on two lines. */
  lemma ImprovementDefaultIsTwoAreas()
    ensures ImprovementMessage(None)
            == ImprovementMessage(Some(["규칙적인 수면 패턴 유지하기", "적절한 휴식 시간 배분하기"]))
  {
  }

  /** A non-empty list shows its first area first and holds every area with one
      line break between neighbours. */
  lemma ImprovementShape(areas: seq<string>)
    requires |areas| > 0
    ensures ImprovementMessage(Some(areas))[..|areas[0]|] == areas[0]
    ensures |ImprovementMessage(Some(areas))| == TotalLength(areas) + |areas| - 1
  {
    JoinStartsWithFirst("\n", areas);
    JoinLength("\n", areas);
  }

  /** A single area is shown as it is. */
  lemma SingleAreaUnchanged(area: string)
    ensures ImprovementMessage(Some([area])) == area
  {
  }

  // ---------------------------------------------------------------------------
  // Summary band

  datatype FocusBand = High | Medium | Low

  /** The colour style of the daily average: high from 0.8, medium from 0.6. */
  function SummaryBand(dailyAverage: real): (b: FocusBand)
    ensures b == High <==> dailyAverage >= 0.8
    ensures b == Medium <==> 0.6 <= dailyAverage < 0.8
    ensures b == Low <==> dailyAverage < 0.6
  {
    if dailyAverage >= 0.8 then High else if dailyAverage >= 0.6 then Medium else Low
  }

  /** A higher average never gets a lower band. */
  lemma SummaryBandMonotonic(a: real, b: real)
    requires a <= b
    ensures SummaryBand(a) == High ==> SummaryBand(b) == High
    ensures SummaryBand(a) == Medium ==> SummaryBand(b) != Low
  {
  }

  // ---------------------------------------------------------------------------
  // Heatmap and fallbacks

  datatype HeatmapEntry = HeatmapEntry(date: string, count: int)

  /** The monthly trend as heatmap cells: value i on the day `30 - i` days before
      today (`dateBefore`), its count the value times ten, rounded. */
  function Heatmap(monthlyTrend: seq<real>, dateBefore: int -> string): (h: seq<HeatmapEntry>)
    ensures |h| == |monthlyTrend|
    ensures forall i :: 0 <= i < |h| ==>
              h[i].date == dateBefore(30 - i)
              && h[i].count as real - 0.5 <= monthlyTrend[i] * 10.0 < h[i].count as real + 0.5
  {
    seq(|monthlyTrend|, i requires 0 <= i < |monthlyTrend| =>
          HeatmapEntry(dateBefore(30 - i), Round(monthlyTrend[i] * 10.0)))
  }

  /** Trend values between 0 and 1 give counts between 0 and 10. */
  lemma HeatmapCountsBounded(monthlyTrend: seq<real>, dateBefore: int -> string)
    requires forall i :: 0 <= i < |monthlyTrend| ==> 0.0 <= monthlyTrend[i] <= 1.0
    ensures forall i :: 0 <= i < |monthlyTrend| ==> 0 <= Heatmap(monthlyTrend, dateBefore)[i].count <= 10
  {
    forall i | 0 <= i < |monthlyTrend|
      ensures 0 <= Heatmap(monthlyTrend, dateBefore)[i].count <= 10
    {
      RoundWithin(monthlyTrend[i] * 10.0, 0, 10);
    }
  }

  /** Without a monthly trend: thirty cells over the same dates with a random count
      from 1 to 10. */
  function RandomHeatmap(dateBefore: int -> string, rand: nat -> nat): (h: seq<HeatmapEntry>)
    ensures |h| == 30
    ensures forall i :: 0 <= i < 30 ==> h[i].date == dateBefore(30 - i) && 1 <= h[i].count <= 10
  {
    seq(30, i requires 0 <= i < 30 => HeatmapEntry(dateBefore(30 - i), rand(i) % 10 + 1))
  }

  const FallbackHourly: seq<real> :=
    [45.0, 40.0, 35.0, 30.0, 25.0, 30.0, 40.0, 55.0,
     65.0, 75.0, 85.0, 90.0, 85.0, 80.0, 75.0, 70.0,
     65.0, 60.0, 65.0, 70.0, 65.0, 60.0, 55.0, 50.0]

  const FallbackWeekday: seq<real> := [65.0, 70.0, 80.0, 75.0, 72.0, 68.0, 62.0]

  datatype FocusFactor = FocusFactor(name: string, score: real, impact: real)

  const FallbackFactors: seq<FocusFactor> :=
    [FocusFactor("수면", 0.85, 0.3), FocusFactor("운동", 0.7, 0.2),
     FocusFactor("스트레스", 0.4, -0.25), FocusFactor("카페인", 0.6, 0.15),
     FocusFactor("휴식", 0.5, 0.1)]

  /** The fallbacks fill every hour of the day and every weekday, on the 0..100
      scale, with the hourly peak at 11 o'clock. */
  lemma FallbacksShape()
    ensures |FallbackHourly| == 24 && |FallbackWeekday| == 7
    ensures forall i :: 0 <= i < 24 ==> 0.0 <= FallbackHourly[i] <= FallbackHourly[11]
    ensures forall i :: 0 <= i < 7 ==> 0.0 <= FallbackWeekday[i] <= 100.0
  {
    var h := FallbackHourly;
    assert h[11] == 90.0;
  }

  // ---------------------------------------------------------------------------
  // The screen state

  /** The parts of the detailed answer; a part that is missing or not an array is
      `None`. */
  datatype DetailedFocus = DetailedFocus(
    dailyAverage: real,
    peakHours: Option<seq<int>>,
    improvementAreas: Option<seq<string>>,
    hourlyFocus: Option<seq<real>>,
    weekdayFocus: Option<seq<real>>,
    focusFactors: Option<seq<FocusFactor>>,
    monthlyTrend: Option<seq<real>>)

  /** The initial `focusData`: average 0 and empty lists. */
  const InitialFocus: DetailedFocus :=
    DetailedFocus(0.0, Some([]), Some([]), None, None, Some([]), Some([]))

  /** `value ?? fallback` for one part of the answer. */
  function OrElse<T>(part: Option<seq<T>>, fallback: seq<T>): (r: seq<T>)
    ensures part.Some? ==> r == part.value
    ensures part.None? ==> r == fallback
  {
    if part.Some? then part.value else fallback
  }

  class FocusDetailedScreen {
    var loading: bool
    var focusData: DetailedFocus
    var hourlyData: seq<real>
    var weekdayData: seq<real>
    var factorData: seq<FocusFactor>
    var heatmapData: seq<HeatmapEntry>

    /** The screen opens loading, with zeros for every hour and weekday and no
        factors or heatmap cells. */
    constructor ()
      ensures loading && focusData == InitialFocus
      ensures hourlyData == seq(24, i => 0.0) && weekdayData == seq(7, i => 0.0)
      ensures factorData == [] && heatmapData == []
    {
      loading := true;
      focusData := InitialFocus;
      hourlyData := seq(24, i => 0.0);
      weekdayData := seq(7, i => 0.0);
      factorData := [];
      heatmapData := [];
    }

    /** `fetchDetailedFocusData`: when the request answers (`Some`), the answer
        becomes the focus data and each chart takes its part or its fallback; when
        it throws (`None`) nothing but the loading flag changes. Loading ends in
        both cases. */
    method FetchDetailedFocusData(response: Option<DetailedFocus>, dateBefore: int -> string,
                                  rand: nat -> nat)
      modifies this
      ensures !loading
      ensures response.None? ==>
                focusData == old(focusData) && hourlyData == old(hourlyData)
                && weekdayData == old(weekdayData) && factorData == old(factorData)
                && heatmapData == old(heatmapData)
      ensures response.Some? ==>
                focusData == response.value
                && hourlyData == OrElse(response.value.hourlyFocus, FallbackHourly)
                && weekdayData == OrElse(response.value.weekdayFocus, FallbackWeekday)
                && factorData == OrElse(response.value.focusFactors, FallbackFactors)
                && heatmapData == (if response.value.monthlyTrend.Some?
                                   then Heatmap(response.value.monthlyTrend.value, dateBefore)
                                   else RandomHeatmap(dateBefore, rand))
    {
      loading := true;
      if response.Some? {
        var data := response.value;
        focusData := data;
        if data.hourlyFocus.Some? {
          hourlyData := data.hourlyFocus.value;
        } else {
          hourlyData := FallbackHourly;
        }
        if data.weekdayFocus.Some? {
          weekdayData := data.weekdayFocus.value;
        } else {
          weekdayData := FallbackWeekday;
        }
        if data.focusFactors.Some? {
          factorData := data.focusFactors.value;
        } else {
          factorData := FallbackFactors;
        }
        if data.monthlyTrend.Some? {
          heatmapData := Heatmap(data.monthlyTrend.value, dateBefore);
        } else {
          heatmapData := RandomHeatmap(dateBefore, rand);
        }
      }
      loading := false;
    }
  }
}
