/** The HealthKit service (`services/HealthKitService.ts`): the reducers that turn
    today's samples into one heart rate, a step total, an energy total and a sleep
    duration, and the bucketing of heart-rate samples into 24 hourly, 7 daily or 30
    daily slots with per-slot rounded means, a positive-only average, a maximum
    and a minimum. The native HealthKit queries are parameters: `None` when the
    query reported an error, otherwise its samples. Times are milliseconds since
    the epoch; the local-time offset, today's weekday and the date labels come
    from the clock as parameters. */
module HealthKitService {
  import opened Common

  /** A numeric HealthKit sample. */
  datatype HealthValue = HealthValue(value: real, startDate: int, endDate: int)

  /** A sleep-analysis sample: its value is a category name. */
  datatype SleepSample = SleepSample(value: string, startDate: int, endDate: int)

  const MsPerHour: int := 3600000
  const MsPerDay: int := 86400000

  // ---------------------------------------------------------------------------
  // Reducers of today's samples

  /** `getHeartRateData`: the last sample rounded, or 0 on error or when there is
      no sample. */
  function LatestHeartRate(results: Option<seq<HealthValue>>): (r: int)
    ensures results.None? || |results.value| == 0 ==> r == 0
    ensures results.Some? && |results.value| > 0 ==>
              var last := results.value[|results.value| - 1].value;
              r as real - 0.5 <= last < r as real + 0.5
  {
    if results.None? || |results.value| == 0 then 0
    else Round(results.value[|results.value| - 1].value)
  }

  /** The sample values, in order. */
  function Values(s: seq<HealthValue>): (v: seq<real>)
    ensures |v| == |s| && forall i :: 0 <= i < |s| ==> v[i] == s[i].value
  {
    seq(|s|, i requires 0 <= i < |s| => s[i].value)
  }

  /** `getStepsData` and `getActiveEnergyData`: the rounded sum of the sample
      values, or 0 on error or when there is no sample. */
  function RoundedTotal(results: Option<seq<HealthValue>>): (r: int)
    ensures results.None? || |results.value| == 0 ==> r == 0
    ensures results.Some? ==>
              r as real - 0.5 <= SumReals(Values(results.value)) < r as real + 0.5
  {
    if results.None? || |results.value| == 0 then 0
    else Round(SumReals(Values(results.value)))
  }

  /** Non-negative samples never give a negative total. */
  lemma {:induction false} NonNegativeTotal(s: seq<real>)
    requires forall i :: 0 <= i < |s| ==> s[i] >= 0.0
    ensures SumReals(s) >= 0.0
  {
    if |s| > 0 {
      NonNegativeTotal(s[..|s| - 1]);
    }
  }

  /** `parseFloat(x.toFixed(1))`: the nearest tenth, halves rounded up. */
  function RoundToTenth(x: real): (r: real)
    ensures r - 0.05 <= x < r + 0.05
  {
    Round(x * 10.0) as real / 10.0
  }

  /** The summed duration of sleep samples, in hours, in the order of the list. */
  function SleepDuration(s: seq<SleepSample>): real
  {
    if |s| == 0 then 0.0
    else SleepDuration(s[..|s| - 1]) + (s[|s| - 1].endDate - s[|s| - 1].startDate) as real / MsPerHour as real
  }

  /** `getSleepData`: sums the duration of every sleep sample, whatever its
      category, and rounds the hours to one decimal; 0 on error or when there is
      no sample. */
  method SleepHours(results: Option<seq<SleepSample>>) returns (hours: real)
    ensures results.None? || |results.value| == 0 ==> hours == 0.0
    ensures results.Some? && |results.value| > 0 ==>
              hours == RoundToTenth(SleepDuration(results.value))
    ensures results.Some? ==> hours - 0.05 <= SleepDuration(results.value) < hours + 0.05
  {
    if results.None? || |results.value| == 0 {
      return 0.0;
    }
    var samples := results.value;
    var sleepTime := 0.0;
    var i := 0;
    while i < |samples|
      invariant 0 <= i <= |samples|
      invariant sleepTime == SleepDuration(samples[..i])
    {
      assert samples[..i + 1][..i] == samples[..i];
      sleepTime := sleepTime + (samples[i].endDate - samples[i].startDate) as real / MsPerHour as real;
      i := i + 1;
    }
    assert samples[..i] == samples;
    hours := RoundToTenth(sleepTime);
  }

  /** Today's values as `fetchHealthData` returns them. */
  datatype HealthSnapshot = HealthSnapshot(heartRate: int, steps: int, sleep: real, activeEnergy: int)

  const DummySnapshot: HealthSnapshot := HealthSnapshot(72, 8500, 7.2, 450)

  /** `fetchHealthData`: the fixed dummy values off iOS; otherwise the four
      reducers. A failed HealthKit initialisation does not stop the queries: its
      fallback value is discarded. */
  method FetchHealthData(isIos: bool, heartRates: Option<seq<HealthValue>>,
                         steps: Option<seq<HealthValue>>, sleep: Option<seq<SleepSample>>,
                         energy: Option<seq<HealthValue>>)
    returns (snapshot: HealthSnapshot)
    ensures !isIos ==> snapshot == DummySnapshot
    ensures isIos ==> snapshot.heartRate == LatestHeartRate(heartRates)
                      && snapshot.steps == RoundedTotal(steps)
                      && snapshot.activeEnergy == RoundedTotal(energy)
                      && (sleep.Some? ==> snapshot.sleep - 0.05 <= SleepDuration(sleep.value)
                                                            < snapshot.sleep + 0.05)
                      && (sleep.None? || |sleep.value| == 0 ==> snapshot.sleep == 0.0)
                      && (sleep.Some? && |sleep.value| > 0 ==>
                            snapshot.sleep == RoundToTenth(SleepDuration(sleep.value)))
  {
    if !isIos {
      return DummySnapshot;
    }
    var heartRate := LatestHeartRate(heartRates);
    var stepTotal := RoundedTotal(steps);
    var sleepHours := SleepHours(sleep);
    var energyTotal := RoundedTotal(energy);
    snapshot := HealthSnapshot(heartRate, stepTotal, sleepHours, energyTotal);
  }

  // ---------------------------------------------------------------------------
  // Slots

  /** The local hour of a time, given the local offset from UTC. */
  function HourKey(offsetMs: int): int -> int
  {
    t => ((t + offsetMs) / MsPerHour) % 24
  }

  /** Whole days between a time and now, rounded down (`Math.floor`). */
  function DaysAgoKey(now: int): int -> int
  {
    t => (now - t) / MsPerDay
  }

  /** Whether a sample falls in slot `slot` of `n`: its key must be that slot, and
      a key outside [0, n) reaches no slot. */
  predicate InSlot(x: HealthValue, key: int -> int, slot: int)
  {
    key(x.startDate) == slot
  }

  /** The sum of the values of the samples in a slot. */
  function SlotSum(s: seq<HealthValue>, key: int -> int, slot: int): real
  {
    if |s| == 0 then 0.0
    else SlotSum(s[..|s| - 1], key, slot) + (if InSlot(s[|s| - 1], key, slot) then s[|s| - 1].value else 0.0)
  }

  /** The number of samples in a slot. */
  function SlotCount(s: seq<HealthValue>, key: int -> int, slot: int): nat
  {
    if |s| == 0 then 0
    else SlotCount(s[..|s| - 1], key, slot) + (if InSlot(s[|s| - 1], key, slot) then 1 else 0)
  }

  /** The value of a slot: 0 with no sample, the rounded mean otherwise. */
  function SlotMean(s: seq<HealthValue>, key: int -> int, slot: int): int
  {
    var count := SlotCount(s, key, slot);
    if count > 0 then Round(SlotSum(s, key, slot) / count as real) else 0
  }

  /** The values of slots 0 to n - 1. */
  function Means(s: seq<HealthValue>, key: int -> int, n: nat): (m: seq<int>)
    ensures |m| == n && forall i :: 0 <= i < n ==> m[i] == SlotMean(s, key, i)
  {
    seq(n, i requires 0 <= i < n => SlotMean(s, key, i))
  }

  /** The slot values: accumulates a sum and a count per slot in two arrays, one
      sample at a time, skipping samples whose key lies outside the slots, and then
      turns each slot into its rounded mean. */
  method BucketMeans(s: seq<HealthValue>, key: int -> int, n: nat) returns (values: seq<int>)
    ensures values == Means(s, key, n)
  {
    var sums := new real[n](_ => 0.0);
    var counts := new int[n](_ => 0);
    var j := 0;
    while j < |s|
      invariant 0 <= j <= |s|
      invariant forall i :: 0 <= i < n ==> sums[i] == SlotSum(s[..j], key, i)
      invariant forall i :: 0 <= i < n ==> counts[i] == SlotCount(s[..j], key, i)
    {
      assert s[..j + 1][..j] == s[..j];
      var k := key(s[j].startDate);
      if 0 <= k < n {
        sums[k] := sums[k] + s[j].value;
        counts[k] := counts[k] + 1;
      }
      j := j + 1;
    }
    assert s[..j] == s;
    assert forall i :: 0 <= i < n ==> sums[i] == SlotSum(s, key, i) && counts[i] == SlotCount(s, key, i);
    var result := new int[n];
    var i := 0;
    while i < n
      invariant 0 <= i <= n
      invariant forall m :: 0 <= m < n ==> sums[m] == SlotSum(s, key, m) && counts[m] == SlotCount(s, key, m)
      invariant forall m :: 0 <= m < i ==> result[m] == SlotMean(s, key, m)
    {
      result[i] := if counts[i] > 0 then Round(sums[i] / counts[i] as real) else 0;
      i := i + 1;
    }
    values := result[..];
  }

  /** A sample whose key lies outside the slots changes no slot: weekly processing
      ignores samples 7 or more days old (or in the future), monthly ones 30 or
      more days old. */
  lemma OutOfRangeSampleIgnored(s: seq<HealthValue>, key: int -> int, n: nat, x: HealthValue)
    requires !(0 <= key(x.startDate) < n)
    ensures Means(s + [x], key, n) == Means(s, key, n)
  {
    assert (s + [x])[..|s|] == s;
  }

  /** A slot with no sample is 0. */
  lemma EmptySlotIsZero(s: seq<HealthValue>, key: int -> int, slot: int)
    requires forall i :: 0 <= i < |s| ==> !InSlot(s[i], key, slot)
    ensures SlotMean(s, key, slot) == 0
  {
    SlotCountZero(s, key, slot);
  }

  lemma {:induction false} SlotCountZero(s: seq<HealthValue>, key: int -> int, slot: int)
    requires forall i :: 0 <= i < |s| ==> !InSlot(s[i], key, slot)
    ensures SlotCount(s, key, slot) == 0
  {
    if |s| > 0 {
      SlotCountZero(s[..|s| - 1], key, slot);
    }
  }

  /** When every sample of a slot lies in [lo, hi], so does the slot's sum divided
      by its count, once scaled: the sum lies between count * lo and count * hi. */
  lemma {:induction false} SlotSumBounds(s: seq<HealthValue>, key: int -> int, slot: int, lo: real, hi: real)
    requires forall i :: 0 <= i < |s| && InSlot(s[i], key, slot) ==> lo <= s[i].value <= hi
    ensures SlotCount(s, key, slot) as real * lo <= SlotSum(s, key, slot)
            <= SlotCount(s, key, slot) as real * hi
  {
    if |s| > 0 {
      SlotSumBounds(s[..|s| - 1], key, slot, lo, hi);
    }
  }

  /** A slot's value is the rounded mean of its samples, so it lies within the
      range of those samples. */
  lemma SlotMeanWithin(s: seq<HealthValue>, key: int -> int, slot: int, lo: int, hi: int)
    requires forall i :: 0 <= i < |s| && InSlot(s[i], key, slot) ==> lo as real <= s[i].value <= hi as real
    requires SlotCount(s, key, slot) > 0
    ensures lo <= SlotMean(s, key, slot) <= hi
  {
    SlotSumBounds(s, key, slot, lo as real, hi as real);
    var c := SlotCount(s, key, slot) as real;
    QuotientWithin(SlotSum(s, key, slot), c, lo as real, hi as real);
    RoundWithin(SlotSum(s, key, slot) / c, lo, hi);
  }

  // ---------------------------------------------------------------------------
  // Statistics over the slot values

  /** The positive values, in order (`values.filter(v => v > 0)`). */
  function Positives(s: seq<int>): (p: seq<int>)
    ensures |p| <= |s|
    ensures forall i :: 0 <= i < |p| ==> p[i] > 0
    ensures forall x :: x in p <==> x in s && x > 0
  {
    if |s| == 0 then []
    else (if s[0] > 0 then [s[0]] else []) + Positives(s[1..])
  }

  function SumInts(s: seq<int>): int
  {
    if |s| == 0 then 0 else s[0] + SumInts(s[1..])
  }

  /** `calculateAverage`: the rounded mean of the positive values, 0 when there is
      none. */
  function CalculateAverage(values: seq<int>): (r: int)
    ensures |Positives(values)| == 0 ==> r == 0
  {
    var p := Positives(values);
    if |p| == 0 then 0 else Round(SumInts(p) as real / |p| as real)
  }

  /** `Math.max(...values)`. */
  function MaxOf(s: seq<int>): (r: int)
    requires |s| > 0
    ensures r in s && forall i :: 0 <= i < |s| ==> s[i] <= r
  {
    if |s| == 1 then s[0]
    else var rest := MaxOf(s[1..]); if s[0] >= rest then s[0] else rest
  }

  /** `Math.min(...values)` of a non-empty list. */
  function MinOf(s: seq<int>): (r: int)
    requires |s| > 0
    ensures r in s && forall i :: 0 <= i < |s| ==> r <= s[i]
  {
    if |s| == 1 then s[0]
    else var rest := MinOf(s[1..]); if s[0] <= rest then s[0] else rest
  }

  /** The smallest positive value, or 0 when no value is positive: the series
      minimum as the code evidently intends it. */
  function MinPositiveOrZero(values: seq<int>): (r: int)
    ensures r == 0 <==> forall i :: 0 <= i < |values| ==> values[i] <= 0
    ensures r != 0 ==> r > 0 && r in values
                       && forall i :: 0 <= i < |values| && values[i] > 0 ==> r <= values[i]
  {
    var p := Positives(values);
    if |p| == 0 then
      assert forall i :: 0 <= i < |values| ==> values[i] !in p;
      0
    else
      var m := MinOf(p);
      assert forall i :: 0 <= i < |values| && values[i] > 0 ==> values[i] in p;
      m
  }

  /** A JavaScript number that may be `Infinity`. */
  datatype Extended = Finite(n: int) | Infinity

  /** `Math.min(...values.filter(v => v > 0)) || 0` as written: with no positive
      value the minimum of nothing is `Infinity`, which is truthy, so the `|| 0`
      never applies. */
  function MinAsWritten(values: seq<int>): (r: Extended)
    ensures r.Finite? ==> r.n > 0
  {
    var p := Positives(values);
    if |p| == 0 then Infinity else Finite(MinOf(p))
  }

  /** The two agree whenever a slot is positive; with every slot empty the series
      reports an infinite minimum instead of 0. */
  lemma MinAsWrittenDiffers(values: seq<int>)
    ensures (exists i :: 0 <= i < |values| && values[i] > 0) ==>
              MinAsWritten(values) == Finite(MinPositiveOrZero(values))
    ensures (forall i :: 0 <= i < |values| ==> values[i] <= 0) ==>
              MinAsWritten(values) == Infinity && MinPositiveOrZero(values) == 0
  {
    if exists i :: 0 <= i < |values| && values[i] > 0 {
      var i :| 0 <= i < |values| && values[i] > 0;
      assert values[i] in Positives(values);
    } else {
      NoPositives(values);
    }
  }

  lemma {:induction false} NoPositives(values: seq<int>)
    requires forall i :: 0 <= i < |values| ==> values[i] <= 0
    ensures Positives(values) == []
  {
    if |values| > 0 {
      NoPositives(values[1..]);
    }
  }

  lemma {:induction false} AllPositive(values: seq<int>)
    requires forall i :: 0 <= i < |values| ==> values[i] > 0
    ensures Positives(values) == values
  {
    if |values| > 0 {
      AllPositive(values[1..]);
    }
  }

  /** A week whose samples all lie outside the last seven days (a non-empty
      query answer of stale samples, say): every slot is 0, so the written
      minimum of the processed week is `Infinity`. */
  lemma EmptyWeekHasInfiniteMin(samples: seq<HealthValue>, now: int, offsetMs: int)
    requires forall i :: 0 <= i < |samples| ==> !(0 <= DaysAgoKey(now)(samples[i].startDate) < 7)
    ensures Means(samples, DaysAgoKey(now), 7) == [0, 0, 0, 0, 0, 0, 0]
    ensures MinAsWritten(PeriodValues(Week, samples, now, offsetMs)) == Infinity
  {
    var key := DaysAgoKey(now);
    forall k | 0 <= k < 7
      ensures SlotMean(samples, key, k) == 0
    {
      EmptySlotIsZero(samples, key, k);
    }
    var m := PeriodValues(Week, samples, now, offsetMs);
    assert m == [0, 0, 0, 0, 0, 0, 0];
    MinAsWrittenDiffers(m);
  }

  lemma {:induction false} SumIntsBounds(p: seq<int>, lo: int, hi: int)
    requires forall i :: 0 <= i < |p| ==> lo <= p[i] <= hi
    ensures |p| as real * lo as real <= SumInts(p) as real <= |p| as real * hi as real
  {
    if |p| > 0 {
      SumIntsBounds(p[1..], lo, hi);
      var k, l, h := |p[1..]| as real, lo as real, hi as real;
      assert |p| as real == k + 1.0;
      assert (k + 1.0) * l == k * l + l;
      assert (k + 1.0) * h == k * h + h;
    }
  }

  /** The average lies between the smallest and the largest positive value, and is
      therefore positive whenever some value is. */
  lemma AverageWithinPositives(values: seq<int>)
    requires |Positives(values)| > 0
    ensures MinOf(Positives(values)) <= CalculateAverage(values) <= MaxOf(Positives(values))
    ensures CalculateAverage(values) > 0
  {
    var p := Positives(values);
    MeanWithin(p, MinOf(p), MaxOf(p));
    assert p[0] > 0;
  }

  /** The rounded mean of a non-empty list lies within any bounds of its items. */
  lemma MeanWithin(p: seq<int>, lo: int, hi: int)
    requires |p| > 0
    requires forall i :: 0 <= i < |p| ==> lo <= p[i] <= hi
    ensures lo <= Round(SumInts(p) as real / |p| as real) <= hi
  {
    SumIntsBounds(p, lo, hi);
    QuotientWithin(SumInts(p) as real, |p| as real, lo as real, hi as real);
    RoundWithin(SumInts(p) as real / |p| as real, lo, hi);
  }

  // ---------------------------------------------------------------------------
  // Reversal

  function Reverse<T>(s: seq<T>): (r: seq<T>)
    ensures |r| == |s| && forall i :: 0 <= i < |s| ==> r[i] == s[|s| - 1 - i]
  {
    seq(|s|, i requires 0 <= i < |s| => s[|s| - 1 - i])
  }

  /** `Array.prototype.reverse`: swaps the two ends inward, in place. */
  method ReverseInPlace(a: array<int>)
    modifies a
    ensures a[..] == Reverse(old(a[..]))
  {
    var i := 0;
    while i < a.Length / 2
      invariant 0 <= i <= a.Length / 2
      invariant forall k :: 0 <= k < i ==> a[k] == old(a[a.Length - 1 - k]) && a[a.Length - 1 - k] == old(a[k])
      invariant forall k :: i <= k < a.Length - i ==> a[k] == old(a[k])
    {
      a[i], a[a.Length - 1 - i] := a[a.Length - 1 - i], a[i];
      i := i + 1;
    }
  }

  lemma ReverseCons(s: seq<int>)
    requires |s| > 0
    ensures Reverse(s) == Reverse(s[1..]) + [s[0]]
  {
  }

  lemma {:induction false} PositivesAppend(a: seq<int>, b: seq<int>)
    ensures Positives(a + b) == Positives(a) + Positives(b)
  {
    if |a| > 0 {
      assert (a + b)[1..] == a[1..] + b;
      PositivesAppend(a[1..], b);
    } else {
      assert a + b == b;
    }
  }

  lemma {:induction false} SumIntsAppend(a: seq<int>, b: seq<int>)
    ensures SumInts(a + b) == SumInts(a) + SumInts(b)
  {
    if |a| > 0 {
      assert (a + b)[1..] == a[1..] + b;
      SumIntsAppend(a[1..], b);
    } else {
      assert a + b == b;
    }
  }

  lemma ReverseAppend(a: seq<int>, b: seq<int>)
    ensures Reverse(a + b) == Reverse(b) + Reverse(a)
  {
    var l, r := Reverse(a + b), Reverse(b) + Reverse(a);
    assert |l| == |r|;
    forall i | 0 <= i < |l|
      ensures l[i] == r[i]
    {
      if i < |b| {
        assert r[i] == Reverse(b)[i] == b[|b| - 1 - i];
      } else {
        assert r[i] == Reverse(a)[i - |b|] == a[|a| - 1 - (i - |b|)];
      }
    }
  }

  /** Filtering commutes with reversal. */
  lemma {:induction false} PositivesReverse(s: seq<int>)
    ensures Positives(Reverse(s)) == Reverse(Positives(s))
  {
    if |s| > 0 {
      var t := s[1..];
      ReverseCons(s);
      PositivesAppend(Reverse(t), [s[0]]);
      PositivesReverse(t);
      var head := if s[0] > 0 then [s[0]] else [];
      assert [s[0]][1..] == [];
      assert Positives([s[0]]) == head;
      assert Positives(s) == head + Positives(t);
      ReverseAppend(head, Positives(t));
      assert Reverse(head) == head;
    } else {
      assert Reverse(s) == [];
    }
  }

  /** Reversal does not change a sum. */
  lemma {:induction false} SumIntsReverse(s: seq<int>)
    ensures SumInts(Reverse(s)) == SumInts(s)
  {
    if |s| > 0 {
      ReverseCons(s);
      SumIntsAppend(Reverse(s[1..]), [s[0]]);
      SumIntsReverse(s[1..]);
    } else {
      assert Reverse(s) == [];
    }
  }

  /** Reversing the slot values, as weekly and monthly processing do, leaves the
      average unchanged. */
  lemma AverageReverse(values: seq<int>)
    ensures CalculateAverage(Reverse(values)) == CalculateAverage(values)
  {
    PositivesReverse(values);
    SumIntsReverse(Positives(values));
  }

  // ---------------------------------------------------------------------------
  // Series

  datatype Period = Day | Week | Month

  datatype HeartRateSeries = HeartRateSeries(
    labels: seq<string>,
    values: seq<int>,
    period: Period,
    average: int,
    max: int,
    min: int)

  /** `${i}시`. */
  function HourLabel(i: nat): string
  {
    NatToString(i) + "시"
  }

  function HourLabels(): (l: seq<string>)
    ensures |l| == 24 && forall i :: 0 <= i < 24 ==> l[i] == HourLabel(i)
  {
    seq(24, i requires 0 <= i < 24 => HourLabel(i))
  }

  /** Different hours get different labels. */
  lemma HourLabelsDistinct(i: nat, j: nat)
    requires i != j
    ensures HourLabel(i) != HourLabel(j)
  {
    var a, b := NatToString(i), NatToString(j);
    if HourLabel(i) == HourLabel(j) {
      assert |a| == |b|;
      assert a == HourLabel(i)[..|a|];
      assert b == HourLabel(j)[..|b|];
      ParseNatToString(i);
      ParseNatToString(j);
    }
  }

  const DayNames: seq<string> := ["일", "월", "화", "수", "목", "금", "토"]

  /** The weekday names from six days ago to today, given today's index (Sunday
      is 0). */
  function WeekLabels(today: nat): (l: seq<string>)
    ensures |l| == 7
  {
    Reverse(seq(7, i requires 0 <= i < 7 => DayNames[(today - i + 7) % 7]))
  }

  /** The statistics every processed series carries. */
  function Stats(labels: seq<string>, values: seq<int>, period: Period): HeartRateSeries
    requires |values| > 0
  {
    HeartRateSeries(labels, values, period, CalculateAverage(values), MaxOf(values),
                    MinPositiveOrZero(values))
  }

  /** `processDailyHeartRate`: one slot per local hour. */
  method ProcessDaily(s: seq<HealthValue>, offsetMs: int) returns (series: HeartRateSeries)
    ensures series == Stats(HourLabels(), Means(s, HourKey(offsetMs), 24), Day)
    ensures |series.values| == 24 && |series.labels| == 24
  {
    var values := BucketMeans(s, HourKey(offsetMs), 24);
    series := HeartRateSeries(HourLabels(), values, Day, CalculateAverage(values),
                              MaxOf(values), MinPositiveOrZero(values));
  }

  /** Every sample lands in one of the 24 hourly slots. */
  lemma EveryHourKeyInRange(offsetMs: int, t: int)
    ensures 0 <= HourKey(offsetMs)(t) < 24
  {
  }

  /** `processWeeklyHeartRate` and `processMonthlyHeartRate`: one slot per day
      back from now, then the values and the labels reversed in place so that the
      oldest day comes first. */
  method ProcessDays(s: seq<HealthValue>, now: int, n: nat, labels: seq<string>, period: Period)
    returns (series: HeartRateSeries)
    requires n > 0
    ensures series == Stats(Reverse(labels), Reverse(Means(s, DaysAgoKey(now), n)), period)
  {
    var means := BucketMeans(s, DaysAgoKey(now), n);
    var a := new int[n](i requires 0 <= i < n reads {} => means[i]);
    assert a[..] == means;
    ReverseInPlace(a);
    var values := a[..];
    series := HeartRateSeries(Reverse(labels), values, period, CalculateAverage(values),
                              MaxOf(values), MinPositiveOrZero(values));
  }

  method ProcessWeekly(s: seq<HealthValue>, now: int, today: nat) returns (series: HeartRateSeries)
    ensures series == Stats(WeekLabels(today), Reverse(Means(s, DaysAgoKey(now), 7)), Week)
  {
    series := ProcessDays(s, now, 7, seq(7, i requires 0 <= i < 7 => DayNames[(today - i + 7) % 7]), Week);
  }

  /** The last entry of a week is today: its label is today's name and its value
      the slot of samples less than a day old; the first entry is six days ago. */
  lemma WeekEndsToday(s: seq<HealthValue>, now: int, today: nat)
    requires today < 7
    ensures WeekLabels(today)[6] == DayNames[today]
    ensures Reverse(Means(s, DaysAgoKey(now), 7))[6] == SlotMean(s, DaysAgoKey(now), 0)
    ensures Reverse(Means(s, DaysAgoKey(now), 7))[0] == SlotMean(s, DaysAgoKey(now), 6)
    ensures WeekLabels(today)[0] == DayNames[(today + 1) % 7]
  {
  }

  /** The month labels, given the label of the day `i` days ago. */
  function MonthLabels(labelOf: nat -> string): (l: seq<string>)
    ensures |l| == 30
  {
    Reverse(seq(30, i requires 0 <= i < 30 => labelOf(i)))
  }

  method ProcessMonthly(s: seq<HealthValue>, now: int, labelOf: nat -> string) returns (series: HeartRateSeries)
    ensures series == Stats(MonthLabels(labelOf), Reverse(Means(s, DaysAgoKey(now), 30)), Month)
  {
    series := ProcessDays(s, now, 30, seq(30, i requires 0 <= i < 30 => labelOf(i)), Month);
  }

  // ---------------------------------------------------------------------------
  // Dummy series

  const DummyDayValues: seq<int> :=
    [60, 62, 58, 55, 54, 52, 56, 65, 72, 75, 78, 80, 82, 79, 77, 76, 78, 82, 79, 75, 72, 68, 65, 62]
  const DummyWeekValues: seq<int> := [68, 72, 75, 71, 69, 74, 73]
  const DummyWeekLabels: seq<string> := ["월", "화", "수", "목", "금", "토", "일"]

  /** `getDummyHeartRateData`: fixed day and week series with stated statistics,
      and a month of values `60 + rand(i) % 20` labelled from 29 days ago to
      today. */
  function DummySeries(period: Period, rand: nat -> nat, labelOf: nat -> string): (d: HeartRateSeries)
    ensures d.period == period
    ensures period == Day ==> |d.values| == 24 && |d.labels| == 24
    ensures period == Week ==> |d.values| == 7 && |d.labels| == 7
    ensures period == Month ==> |d.values| == 30 && |d.labels| == 30
                                && forall i :: 0 <= i < 30 ==> 60 <= d.values[i] <= 79
  {
    match period
    case Day => HeartRateSeries(HourLabels(), DummyDayValues, Day, 70, 82, 52)
    case Week => HeartRateSeries(DummyWeekLabels, DummyWeekValues, Week, 72, 75, 68)
    case Month =>
      var values := seq(30, i requires 0 <= i < 30 => rand(i) % 20 + 60);
      HeartRateSeries(seq(30, i requires 0 <= i < 30 => labelOf(29 - i)), values, Month, 71,
                      MaxOf(values), MinOf(values))
  }

  /** `m` is one of the items and no item exceeds it. */
  predicate IsMaximum(s: seq<int>, m: int)
  {
    (exists i :: 0 <= i < |s| && s[i] == m) && forall k :: 0 <= k < |s| ==> s[k] <= m
  }

  /** `m` is a positive item and no positive item is below it. */
  predicate IsPositiveMinimum(s: seq<int>, m: int)
  {
    m > 0 && (exists i :: 0 <= i < |s| && s[i] == m)
    && forall k :: 0 <= k < |s| && s[k] > 0 ==> m <= s[k]
  }

  /** The maximum of a series is the value that `IsMaximum` characterises. */
  lemma MaxIsBound(s: seq<int>, m: int)
    requires IsMaximum(s, m)
    ensures |s| > 0 && MaxOf(s) == m
  {
  }

  /** The smallest positive value is the one `IsPositiveMinimum` characterises. */
  lemma MinIsBound(s: seq<int>, m: int)
    requires IsPositiveMinimum(s, m)
    ensures MinPositiveOrZero(s) == m
  {
  }

  /** The maximum 82 and minimum 52 the fixed day series states are its actual
      ones (with `MaxIsBound` and `MinIsBound`, they are what `MaxOf` and
      `MinPositiveOrZero` compute). */
  lemma DummyDayStats()
    ensures IsMaximum(DummyDayValues, 82)
    ensures IsPositiveMinimum(DummyDayValues, 52)
  {
    assert DummyDayValues[12] == 82 && DummyDayValues[5] == 52;
  }

  /** The maximum 75 and minimum 68 the fixed week series states are its actual
      ones. */
  lemma DummyWeekStats()
    ensures IsMaximum(DummyWeekValues, 75)
    ensures IsPositiveMinimum(DummyWeekValues, 68)
  {
    assert DummyWeekValues[2] == 75 && DummyWeekValues[0] == 68;
  }

  /** The dummy month is labelled exactly like a processed month. */
  lemma DummyMonthLabelsMatch(rand: nat -> nat, labelOf: nat -> string)
    ensures DummySeries(Month, rand, labelOf).labels == MonthLabels(labelOf)
  {
  }

  /** The slot values a processed series of the period carries: the hourly means
      for a day, the daily means oldest first for a week or a month. */
  function PeriodValues(period: Period, s: seq<HealthValue>, now: int, offsetMs: int): (v: seq<int>)
    ensures |v| == (match period case Day => 24 case Week => 7 case Month => 30)
  {
    match period
    case Day => Means(s, HourKey(offsetMs), 24)
    case Week => Reverse(Means(s, DaysAgoKey(now), 7))
    case Month => Reverse(Means(s, DaysAgoKey(now), 30))
  }

  /** The labels a processed series of the period carries: the 24 hours, the
      weekday names ending today, or the 30 dates ending today. */
  function PeriodLabels(period: Period, today: nat, labelOf: nat -> string): (l: seq<string>)
    ensures |l| == |PeriodValues(period, [], 0, 0)|
  {
    match period
    case Day => HourLabels()
    case Week => WeekLabels(today)
    case Month => MonthLabels(labelOf)
  }

  /** `fetchHeartRateByPeriod`: the dummy series off iOS, on a query error or when
      the query returns no sample; otherwise the processed samples. */
  method FetchHeartRateByPeriod(period: Period, isIos: bool, samples: Option<seq<HealthValue>>,
                                now: int, offsetMs: int, today: nat,
                                labelOf: nat -> string, rand: nat -> nat)
    returns (series: HeartRateSeries)
    ensures !isIos || samples.None? || |samples.value| == 0 ==>
              series == DummySeries(period, rand, labelOf)
    ensures isIos && samples.Some? && |samples.value| > 0 ==>
              series.period == period
              && series.values == PeriodValues(period, samples.value, now, offsetMs)
              && series.labels == PeriodLabels(period, today, labelOf)
              && series == Stats(series.labels, series.values, period)
              && series.average == CalculateAverage(series.values)
              && series.max == MaxOf(series.values)
              && series.min == MinPositiveOrZero(series.values)
    ensures isIos && samples.Some? && |samples.value| > 0
            && (exists i :: 0 <= i < |series.values| && series.values[i] > 0) ==>
              MinAsWritten(series.values) == Finite(series.min)
  {
    if !isIos || samples.None? || |samples.value| == 0 {
      return DummySeries(period, rand, labelOf);
    }
    match period
    case Day =>
      series := ProcessDaily(samples.value, offsetMs);
    case Week =>
      series := ProcessWeekly(samples.value, now, today);
    case Month =>
      series := ProcessMonthly(samples.value, now, labelOf);
    MinAsWrittenDiffers(series.values);
  }
}
