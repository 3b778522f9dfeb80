/** The heart-rate chart (`components/HeartRateChart.tsx`): a fixed mock series shown
    until the HealthKit service answers, and the label thinning and dot setting
    applied before the series is drawn. */
module HeartRateChartComponent {
  import opened Common
  import HealthKitService

  type Period = HealthKitService.Period
  type HeartRateSeries = HealthKitService.HeartRateSeries

  // ---------------------------------------------------------------------------
  // Label thinning

  /** The positions, counted from `lo`, whose flag holds, in increasing order. */
  function Positions(flags: seq<bool>, lo: int): seq<int>
  {
    if |flags| == 0 then []
    else (if flags[0] then [lo] else []) + Positions(flags[1..], lo + 1)
  }

  /** There are as many positions as selected items. */
  lemma {:induction false} PositionsLength<T>(flags: seq<bool>, items: seq<T>, lo: int)
    requires |flags| == |items|
    ensures |Positions(flags, lo)| == |Select(flags, items)|
  {
    if |flags| > 0 {
      PositionsLength(flags[1..], items[1..], lo + 1);
    }
  }

  /** The k-th position lies in range and its flag holds. */
  lemma {:induction false} PositionBounds(flags: seq<bool>, lo: int, k: nat)
    requires k < |Positions(flags, lo)|
    ensures lo <= Positions(flags, lo)[k] < lo + |flags|
    ensures flags[Positions(flags, lo)[k] - lo]
  {
    var p' := Positions(flags[1..], lo + 1);
    if flags[0] {
      assert Positions(flags, lo) == [lo] + p';
      if k > 0 {
        PositionBounds(flags[1..], lo + 1, k - 1);
      }
    } else {
      assert Positions(flags, lo) == p';
      PositionBounds(flags[1..], lo + 1, k);
    }
  }

  /** The k-th selected item is the item at the k-th position. */
  lemma {:induction false} SelectAtPosition<T>(flags: seq<bool>, items: seq<T>, lo: int, k: nat)
    requires |flags| == |items| && k < |Positions(flags, lo)|
    ensures |Positions(flags, lo)| == |Select(flags, items)|
    ensures 0 <= Positions(flags, lo)[k] - lo < |items|
    ensures Select(flags, items)[k] == items[Positions(flags, lo)[k] - lo]
  {
    PositionsLength(flags, items, lo);
    PositionBounds(flags, lo, k);
    var p', r' := Positions(flags[1..], lo + 1), Select(flags[1..], items[1..]);
    PositionsLength(flags[1..], items[1..], lo + 1);
    if flags[0] {
      assert Positions(flags, lo) == [lo] + p' && Select(flags, items) == [items[0]] + r';
      if k > 0 {
        assert Positions(flags, lo)[k] == p'[k - 1] && Select(flags, items)[k] == r'[k - 1];
        SelectAtPosition(flags[1..], items[1..], lo + 1, k - 1);
        assert items[1..][p'[k - 1] - (lo + 1)] == items[p'[k - 1] - lo];
      }
    } else {
      assert Positions(flags, lo) == p' && Select(flags, items) == r';
      SelectAtPosition(flags[1..], items[1..], lo + 1, k);
    }
  }

  /** Positions increase. */
  lemma {:induction false} PositionsIncrease(flags: seq<bool>, lo: int, j: nat, k: nat)
    requires j < k < |Positions(flags, lo)|
    ensures Positions(flags, lo)[j] < Positions(flags, lo)[k]
  {
    var p, p' := Positions(flags, lo), Positions(flags[1..], lo + 1);
    if flags[0] {
      assert p == [lo] + p';
      assert p[k] == p'[k - 1];
      if j == 0 {
        PositionBounds(flags[1..], lo + 1, k - 1);
      } else {
        assert p[j] == p'[j - 1];
        PositionsIncrease(flags[1..], lo + 1, j - 1, k - 1);
      }
    } else {
      assert p == p';
      PositionsIncrease(flags[1..], lo + 1, j, k);
    }
  }

  /** Every position whose flag holds is listed. */
  lemma {:induction false} PositionsComplete(flags: seq<bool>, lo: int, i: nat)
    requires i < |flags| && flags[i]
    ensures lo + i in Positions(flags, lo)
  {
    var p' := Positions(flags[1..], lo + 1);
    assert Positions(flags, lo) == (if flags[0] then [lo] else []) + p';
    if i > 0 {
      assert flags[1..][i - 1] == flags[i];
      PositionsComplete(flags[1..], lo + 1, i - 1);
    }
  }

  /** Keep position `i` of `n` when it is a multiple of `step` or the last one. */
  function KeepFlags(n: nat, step: nat): (f: seq<bool>)
    requires step > 0
    ensures |f| == n && forall i :: 0 <= i < n ==> (f[i] <==> i % step == 0 || i == n - 1)
  {
    seq(n, i requires 0 <= i < n => i % step == 0 || i == n - 1)
  }

  /** The thinning step of a period: every third hour, every fifth day, or none. */
  function Step(period: Period): nat
  {
    match period
    case Day => 3
    case Week => 1
    case Month => 5
  }

  /** `getOptimizedLabels`: no labels without a label list; the week unchanged;
      the day and the month filtered to the multiples of their step and the last
      label. */
  function OptimizedLabels(labels: Option<seq<string>>, period: Period): (r: seq<string>)
    ensures labels.None? ==> r == []
    ensures labels.Some? && period.Week? ==> r == labels.value
  {
    if labels.None? then []
    else if period.Week? then labels.value
    else Select(KeepFlags(|labels.value|, Step(period)), labels.value)
  }

  /** The positions of the labels the chart keeps. */
  function KeptPositions(n: nat, period: Period): seq<int>
  {
    Positions(KeepFlags(n, Step(period)), 0)
  }

  /** `Select` keeps a subsequence: its k-th item is the item at the k-th position,
      the positions increase, and a position is listed exactly when its flag
      holds. */
  lemma SelectSubsequence<T>(flags: seq<bool>, items: seq<T>)
    requires |flags| == |items|
    ensures |Select(flags, items)| == |Positions(flags, 0)|
    ensures forall k :: 0 <= k < |Positions(flags, 0)| ==>
              0 <= Positions(flags, 0)[k] < |items|
              && Select(flags, items)[k] == items[Positions(flags, 0)[k]]
    ensures forall j, k :: 0 <= j < k < |Positions(flags, 0)| ==>
              Positions(flags, 0)[j] < Positions(flags, 0)[k]
    ensures forall i :: 0 <= i < |flags| ==> (i in Positions(flags, 0) <==> flags[i])
  {
    var p := Positions(flags, 0);
    PositionsLength(flags, items, 0);
    forall k | 0 <= k < |p|
      ensures 0 <= p[k] < |items| && Select(flags, items)[k] == items[p[k]]
    {
      SelectAtPosition(flags, items, 0, k);
    }
    forall j, k | 0 <= j < k < |p|
      ensures p[j] < p[k]
    {
      PositionsIncrease(flags, 0, j, k);
    }
    forall i | 0 <= i < |flags|
      ensures i in p <==> flags[i]
    {
      if flags[i] {
        PositionsComplete(flags, 0, i);
      }
      if i in p {
        var k :| 0 <= k < |p| && p[k] == i;
        PositionBounds(flags, 0, k);
      }
    }
  }

  /** The kept labels are the labels at increasing positions; a position is kept
      exactly when it is a multiple of the period's step or the last one. */
  lemma ThinnedIsSubsequence(labels: seq<string>, period: Period)
    ensures |OptimizedLabels(Some(labels), period)| == |KeptPositions(|labels|, period)|
    ensures forall k :: 0 <= k < |KeptPositions(|labels|, period)| ==>
              0 <= KeptPositions(|labels|, period)[k] < |labels|
              && OptimizedLabels(Some(labels), period)[k] == labels[KeptPositions(|labels|, period)[k]]
    ensures forall j, k :: 0 <= j < k < |KeptPositions(|labels|, period)| ==>
              KeptPositions(|labels|, period)[j] < KeptPositions(|labels|, period)[k]
    ensures forall i :: 0 <= i < |labels| ==>
              (i in KeptPositions(|labels|, period) <==> i % Step(period) == 0 || i == |labels| - 1)
  {
    var flags := KeepFlags(|labels|, Step(period));
    if period.Week? {
      SelectAll(flags, labels);
    }
    assert OptimizedLabels(Some(labels), period) == Select(flags, labels);
    SelectSubsequence(flags, labels);
  }

  /** With every flag set, `Select` keeps everything. */
  lemma {:induction false} SelectAll<T>(flags: seq<bool>, items: seq<T>)
    requires |flags| == |items| && forall i :: 0 <= i < |flags| ==> flags[i]
    ensures Select(flags, items) == items
  {
    if |items| > 0 {
      SelectAll(flags[1..], items[1..]);
      assert [items[0]] + items[1..] == items;
    }
  }

  /** The first and the last label always survive the thinning. */
  lemma FirstAndLastKept(labels: seq<string>, period: Period)
    requires |labels| > 0
    ensures |OptimizedLabels(Some(labels), period)| > 0
    ensures OptimizedLabels(Some(labels), period)[0] == labels[0]
    ensures OptimizedLabels(Some(labels), period)[|OptimizedLabels(Some(labels), period)| - 1]
            == labels[|labels| - 1]
  {
    if !period.Week? {
      var n := |labels|;
      var flags := KeepFlags(n, Step(period));
      var r := Select(flags, labels);
      assert r == [labels[0]] + Select(flags[1..], labels[1..]);
      assert flags == flags[..n - 1] + [true] && labels == labels[..n - 1] + [labels[n - 1]];
      SelectAppend(flags[..n - 1], labels[..n - 1], true, labels[n - 1]);
    }
  }

  // ---------------------------------------------------------------------------
  // The dataset

  datatype Dataset = Dataset(data: seq<int>, withDots: bool)

  /** `getOptimizedDataset`: the values unchanged (none without a value list), with
      dots except on the hourly chart. */
  function OptimizedDataset(values: Option<seq<int>>, period: Period): (d: Dataset)
    ensures values.None? ==> d.data == [] && !d.withDots
    ensures values.Some? ==> d.data == values.value && (d.withDots <==> !period.Day?)
  {
    if values.None? then Dataset([], false)
    else if period.Day? then Dataset(values.value, false)
    else Dataset(values.value, true)
  }

  // ---------------------------------------------------------------------------
  // Mock data and loading

  /** `MOCK_DATA`: a short series per period with its stated statistics. */
  function MockSeries(period: Period): (d: HeartRateSeries)
    ensures d.period == period && |d.values| > 0 && |d.labels| == |d.values|
  {
    match period
    case Day =>
      HealthKitService.HeartRateSeries(
        ["00:00", "03:00", "06:00", "09:00", "12:00", "15:00", "18:00", "21:00", "24:00"],
        [65, 62, 60, 75, 78, 82, 76, 72, 68], period, 71, 82, 60)
    case Week =>
      HealthKitService.HeartRateSeries(["월", "화", "수", "목", "금", "토", "일"],
        [72, 74, 71, 75, 78, 73, 70], period, 73, 78, 70)
    case Month =>
      HealthKitService.HeartRateSeries(["1일", "5일", "10일", "15일", "20일", "25일", "30일"],
        [68, 72, 75, 71, 73, 76, 74], period, 73, 76, 68)
  }

  /** Each mock series states its true maximum and smallest positive value. */
  lemma MockStatsConsistent(period: Period)
    ensures HealthKitService.IsMaximum(MockSeries(period).values, MockSeries(period).max)
    ensures HealthKitService.IsPositiveMinimum(MockSeries(period).values, MockSeries(period).min)
  {
    var v := MockSeries(period).values;
    match period
    case Day => assert v[5] == 82 && v[2] == 60;
    case Week => assert v[4] == 78 && v[6] == 70;
    case Month => assert v[5] == 76 && v[0] == 68;
  }

  /** The series on screen after a load: the fetched one when it has values, the
      mock otherwise (also when the fetch threw, shown as `None`). */
  function Shown(period: Period, fetched: Option<HeartRateSeries>): (d: HeartRateSeries)
    ensures |d.values| > 0
    ensures fetched.Some? && |fetched.value.values| > 0 ==> d == fetched.value
    ensures fetched.None? || |fetched.value.values| == 0 ==> d == MockSeries(period)
  {
    if fetched.Some? && |fetched.value.values| > 0 then fetched.value else MockSeries(period)
  }

  class HeartRateChart {
    var period: Period
    var heartRateData: HeartRateSeries
    var loading: bool

    /** The chart opens on the mock series of its initial period, loading. */
    constructor (initialPeriod: Period)
      ensures period == initialPeriod && heartRateData == MockSeries(initialPeriod) && loading
    {
      period := initialPeriod;
      heartRateData := MockSeries(initialPeriod);
      loading := true;
    }

    /** `loadHeartRateData`: shows the mock of the current period, then replaces it
        with the fetched series only when that has a non-empty value list. */
    method LoadHeartRateData(fetched: Option<HeartRateSeries>)
      modifies this
      ensures period == old(period) && !loading
      ensures heartRateData == Shown(period, fetched)
    {
      loading := true;
      heartRateData := MockSeries(period);
      if fetched.Some? && |fetched.value.values| > 0 {
        heartRateData := fetched.value;
      }
      loading := false;
    }

    /** A period button: `setPeriod` with another period reruns the load effect
        for it, showing the series the HealthKit service returns; pressing the
        period already selected sets the same state, so React neither re-renders
        nor reruns the effect and nothing changes. */
    method SelectPeriod(p: Period, isIos: bool, samples: Option<seq<HealthKitService.HealthValue>>,
                        now: int, offsetMs: int, today: nat,
                        labelOf: nat -> string, rand: nat -> nat)
      returns (series: HeartRateSeries)
      modifies this
      ensures period == p && heartRateData == series
      ensures p == old(period) ==> series == old(heartRateData) && loading == old(loading)
      ensures p != old(period) ==> !loading && series.period == p
      ensures p != old(period) && (!isIos || samples.None? || |samples.value| == 0) ==>
                series == HealthKitService.DummySeries(p, rand, labelOf)
      ensures p != old(period) && isIos && samples.Some? && |samples.value| > 0 ==>
                series.values == HealthKitService.PeriodValues(p, samples.value, now, offsetMs)
                && series.labels == HealthKitService.PeriodLabels(p, today, labelOf)
                && series.average == HealthKitService.CalculateAverage(series.values)
    {
      if p == period {
        return heartRateData;
      }
      period := p;
      series := HealthKitService.FetchHeartRateByPeriod(p, isIos, samples, now, offsetMs,
                                                       today, labelOf, rand);
      ServiceSeriesNeverEmpty(p, isIos, samples, now, offsetMs, series, rand, labelOf);
      LoadHeartRateData(Some(series));
    }
  }

  /** The service always answers with a full series (24, 7 or 30 values), so once
      it has answered the mock is never what the chart shows. */
  lemma ServiceSeriesNeverEmpty(p: Period, isIos: bool, samples: Option<seq<HealthKitService.HealthValue>>,
                                now: int, offsetMs: int, series: HeartRateSeries,
                                rand: nat -> nat, labelOf: nat -> string)
    requires !isIos || samples.None? || |samples.value| == 0 ==>
               series == HealthKitService.DummySeries(p, rand, labelOf)
    requires isIos && samples.Some? && |samples.value| > 0 ==>
               series.period == p
               && series.values == HealthKitService.PeriodValues(p, samples.value, now, offsetMs)
    ensures |series.values| > 0 && series.period == p
    ensures Shown(p, Some(series)) == series
  {
  }
}
