/** The focus screen (`components/FocusScreen.tsx`): it turns the last day of
    HealthKit samples into the biometric record the backend scores, and keeps the
    loading flag and the latest prediction as component state. Each native query
    arrives as a parameter, `None` when its callback reported an error. */
module FocusScreenComponent {
  import opened Common
  import HealthKitService
  import ServerMain
  import ClientFocusApi

  type SleepSample = HealthKitService.SleepSample
  type HealthValue = HealthKitService.HealthValue
  type BiometricRecord = ClientFocusApi.BiometricRecord

  // ---------------------------------------------------------------------------
  // Sleep hours

  /** Only the in-bed and asleep categories count as sleep on this screen. */
  predicate InBedOrAsleep(s: SleepSample)
  {
    s.value == "INBED" || s.value == "ASLEEP"
  }

  /** `1000 * 60`: milliseconds per minute. */
  const MsPerMinute: real := 60000.0

  /** The minutes of every qualifying sample, in list order. */
  function CountedMinutes(s: seq<SleepSample>): real
  {
    if |s| == 0 then 0.0
    else
      var last := s[|s| - 1];
      CountedMinutes(s[..|s| - 1])
      + (if InBedOrAsleep(last) then (last.endDate - last.startDate) as real / MsPerMinute else 0.0)
  }

  /** The qualifying samples, in list order. */
  function Qualifying(s: seq<SleepSample>): (q: seq<SleepSample>)
    ensures |q| <= |s|
    ensures forall i :: 0 <= i < |q| ==> InBedOrAsleep(q[i])
  {
    if |s| == 0 then []
    else Qualifying(s[..|s| - 1]) + (if InBedOrAsleep(s[|s| - 1]) then [s[|s| - 1]] else [])
  }

  /** The screen's sleep hours are the plain summed duration (as the HealthKit
      service computes it, before its rounding) of the in-bed and asleep samples
      alone. */
  lemma {:induction false} CountedMinutesAreQualifyingDuration(s: seq<SleepSample>)
    ensures CountedMinutes(s) / 60.0 == HealthKitService.SleepDuration(Qualifying(s))
  {
    if |s| > 0 {
      var init, last := s[..|s| - 1], s[|s| - 1];
      CountedMinutesAreQualifyingDuration(init);
      var q := Qualifying(init);
      if InBedOrAsleep(last) {
        assert (q + [last])[..|q|] == q;
        assert HealthKitService.SleepDuration(q + [last])
               == HealthKitService.SleepDuration(q)
                  + (last.endDate - last.startDate) as real / HealthKitService.MsPerHour as real;
      } else {
        assert q + [] == q;
      }
    }
  }

  /** When every sample is in bed or asleep, the screen and the HealthKit service
      sum the same durations; any other category only the service counts. */
  lemma {:induction false} AllQualifyingAgree(s: seq<SleepSample>)
    requires forall i :: 0 <= i < |s| ==> InBedOrAsleep(s[i])
    ensures CountedMinutes(s) / 60.0 == HealthKitService.SleepDuration(s)
  {
    CountedMinutesAreQualifyingDuration(s);
    QualifyingKeepsAll(s);
  }

  lemma {:induction false} QualifyingKeepsAll(s: seq<SleepSample>)
    requires forall i :: 0 <= i < |s| ==> InBedOrAsleep(s[i])
    ensures Qualifying(s) == s
  {
    QualifyingKeepsPrefix(s, |s|);
    assert s[..|s|] == s;
  }

  lemma {:induction false} QualifyingKeepsPrefix(s: seq<SleepSample>, k: nat)
    requires forall i :: 0 <= i < |s| ==> InBedOrAsleep(s[i])
    requires k <= |s|
    ensures Qualifying(s[..k]) == s[..k]
  {
    if k > 0 {
      QualifyingKeepsPrefix(s, k - 1);
      assert s[..k][..k - 1] == s[..k - 1];
      assert s[..k][k - 1] == s[k - 1];
      assert InBedOrAsleep(s[k - 1]);
      assert s[..k - 1] + [s[k - 1]] == s[..k];
    }
  }

  /** A sample of any other category (awake, core, deep, ...) adds nothing. */
  lemma OtherCategoryIgnored(s: seq<SleepSample>, x: SleepSample)
    requires !InBedOrAsleep(x)
    ensures CountedMinutes(s + [x]) == CountedMinutes(s)
  {
    assert (s + [x])[..|s|] == s;
  }

  /** With well-ordered intervals the total is never negative. */
  lemma {:induction false} CountedMinutesNonNegative(s: seq<SleepSample>)
    requires forall i :: 0 <= i < |s| ==> s[i].startDate <= s[i].endDate
    ensures CountedMinutes(s) >= 0.0
  {
    if |s| > 0 {
      CountedMinutesNonNegative(s[..|s| - 1]);
    }
  }

  /** `calculateSleepHours`: 0 for an empty list, otherwise the minutes of every
      in-bed or asleep sample, accumulated in list order, converted to hours. */
  method CalculateSleepHours(sleepData: seq<SleepSample>) returns (hours: real)
    ensures |sleepData| == 0 ==> hours == 0.0
    ensures hours == CountedMinutes(sleepData) / 60.0
    ensures hours == HealthKitService.SleepDuration(Qualifying(sleepData))
  {
    CountedMinutesAreQualifyingDuration(sleepData);
    if |sleepData| == 0 {
      return 0.0;
    }
    var totalSleepMinutes := 0.0;
    var i := 0;
    while i < |sleepData|
      invariant 0 <= i <= |sleepData|
      invariant totalSleepMinutes == CountedMinutes(sleepData[..i])
    {
      assert sleepData[..i + 1][..i] == sleepData[..i];
      var sleep := sleepData[i];
      if sleep.value == "INBED" || sleep.value == "ASLEEP" {
        totalSleepMinutes := totalSleepMinutes + (sleep.endDate - sleep.startDate) as real / MsPerMinute;
      }
      i := i + 1;
    }
    assert sleepData[..i] == sleepData;
    hours := totalSleepMinutes / 60.0;
  }

  // ---------------------------------------------------------------------------
  // Activity and stress

  /** `calculateActivityLevel`: active energy in kcal scaled by 1/500 onto 0..10. */
  function CalculateActivityLevel(activeEnergy: real): (r: real)
    ensures 0.0 <= r <= 10.0
    ensures 0.0 <= activeEnergy <= 5000.0 ==> r == activeEnergy / 500.0
    ensures activeEnergy < 0.0 ==> r == 0.0
    ensures activeEnergy > 5000.0 ==> r == 10.0
  {
    Clamp(0.0, 10.0, activeEnergy / 500.0)
  }

  /** `calculateStressLevel`: 5 when the resting rate is unknown (0); otherwise the
      excess of the current rate over the resting one, in tens of beats, on 0..10. */
  function CalculateStressLevel(currentHR: real, restingHR: real): (r: real)
    ensures restingHR == 0.0 ==> r == 5.0
    ensures 0.0 <= r <= 10.0
    ensures restingHR != 0.0 && restingHR <= currentHR <= restingHR + 100.0
            ==> r == (currentHR - restingHR) / 10.0
    ensures restingHR != 0.0 && currentHR < restingHR ==> r == 0.0
    ensures restingHR != 0.0 && currentHR > restingHR + 100.0 ==> r == 10.0
  {
    if restingHR == 0.0 then 5.0
    else Clamp(0.0, 10.0, (currentHR - restingHR) / 10.0)
  }

  /** More active energy never lowers the activity level. */
  lemma ActivityMonotonic(e1: real, e2: real)
    requires e1 <= e2
    ensures CalculateActivityLevel(e1) <= CalculateActivityLevel(e2)
  {
    ClampMonotonic(0.0, 10.0, e1 / 500.0, e2 / 500.0);
  }

  /** Against a known resting rate, a faster current rate never lowers stress. */
  lemma StressMonotonic(hr1: real, hr2: real, restingHR: real)
    requires hr1 <= hr2 && restingHR != 0.0
    ensures CalculateStressLevel(hr1, restingHR) <= CalculateStressLevel(hr2, restingHR)
  {
    ClampMonotonic(0.0, 10.0, (hr1 - restingHR) / 10.0, (hr2 - restingHR) / 10.0);
  }

  // ---------------------------------------------------------------------------
  // The payload

  /** `results[results.length - 1]?.value || 0`: the last sample's value, 0 for an
      empty list. */
  function LastValue(s: seq<HealthValue>): real
  {
    if |s| == 0 then 0.0 else s[|s| - 1].value
  }

  /** What a native query resolves with: a list of samples, or one object with a
      `value` (as the step count does). */
  datatype NativeAnswer = Samples(samples: seq<HealthValue>) | Quantity(value: real)

  /** `answer.value || 0`: a sample list has no `value` property, so the read is
      `undefined` and the expression gives 0. */
  function ValueOrZero(answer: NativeAnswer): real
  {
    match answer
    case Samples(_) => 0.0
    case Quantity(v) => v
  }

  /** The activity level the screen evidently means to send: the scale applied to
      the active-energy total, summed and rounded as the HealthKit service's
      `getActiveEnergyData` reports it. */
  function IntendedActivityLevel(energy: seq<HealthValue>): (r: real)
    ensures 0.0 <= r <= 10.0
    ensures r == CalculateActivityLevel(HealthKitService.RoundedTotal(Some(energy)) as real)
  {
    var total := if |energy| == 0 then 0 else Round(SumReals(HealthKitService.Values(energy)));
    Clamp(0.0, 10.0, total as real / 500.0)
  }

  /** One more sample of non-negative energy never lowers the intended level. */
  lemma IntendedActivityMonotonic(energy: seq<HealthValue>, x: HealthValue)
    requires x.value >= 0.0
    ensures IntendedActivityLevel(energy) <= IntendedActivityLevel(energy + [x])
  {
    var before := HealthKitService.RoundedTotal(Some(energy));
    var after := HealthKitService.RoundedTotal(Some(energy + [x]));
    var v := HealthKitService.Values(energy);
    assert HealthKitService.Values(energy + [x]) == v + [x.value];
    assert (v + [x.value])[..|v|] == v;
    assert SumReals(v + [x.value]) == SumReals(v) + x.value;
    assert before <= after;
    ActivityMonotonic(before as real, after as real);
  }

  /** The record `fetchHealthData` builds from the five query results. */
  function Payload(now: string, heartRates: seq<HealthValue>, steps: real,
                   sleep: seq<SleepSample>, energy: seq<HealthValue>, resting: seq<HealthValue>)
    : (p: BiometricRecord)
    ensures p.userId == ClientFocusApi.FixedUserId && p.timestamp == now
    ensures p.caffeineIntake == 0.0 && p.waterIntake == 0.0
    ensures 0.0 <= p.stressLevel <= 10.0 && p.activityLevel == 0.0
    ensures p.sleepHours == HealthKitService.SleepDuration(Qualifying(sleep))
    ensures p.heartRate == LastValue(heartRates) && p.steps == steps
  {
    CountedMinutesAreQualifyingDuration(sleep);
    ClientFocusApi.BiometricRecord(
      ClientFocusApi.FixedUserId, now, LastValue(heartRates), CountedMinutes(sleep) / 60.0, steps,
      CalculateStressLevel(LastValue(heartRates), LastValue(resting)),
      CalculateActivityLevel(ValueOrZero(Samples(energy))), 0.0, 0.0)
  }

  /** As written, the energy query's samples never reach the activity level: an
      afternoon's 600 kcal is sent as level 0, where the intended level is 1.2. */
  lemma ActivityIgnoresEnergy(now: string, heartRates: seq<HealthValue>, steps: real,
                              sleep: seq<SleepSample>, resting: seq<HealthValue>)
    ensures Payload(now, heartRates, steps, sleep, [HealthKitService.HealthValue(600.0, 0, 0)], resting).activityLevel
            == 0.0
    ensures IntendedActivityLevel([HealthKitService.HealthValue(600.0, 0, 0)]) == 1.2
  {
    var e := [HealthKitService.HealthValue(600.0, 0, 0)];
    assert HealthKitService.Values(e) == [600.0];
    assert SumReals([600.0]) == SumReals([600.0][..0]) + 600.0;
    assert Round(600.0) == 600;
  }

  /** HealthKit has no intake data, so when the backend is unreachable the fallback
      always applies the water rule (intake 0 is under 1500 ml) and never the
      caffeine rule, and with a non-negative stress level its score is at most 70. */
  lemma PayloadFallbackAdvice(p: BiometricRecord)
    requires p.caffeineIntake == 0.0 && p.waterIntake == 0.0 && 0.0 <= p.stressLevel
    ensures ServerMain.WaterMessage in ClientFocusApi.MockRecommendations(p, ClientFocusApi.MockScore(p))
    ensures ServerMain.CaffeineMessage !in ClientFocusApi.MockRecommendations(p, ClientFocusApi.MockScore(p))
    ensures ClientFocusApi.MockScore(p) <= 70.0
  {
    assert ClientFocusApi.UnclampedMockScore(p) <= 70.0;
    var t := ClientFocusApi.MockTriggers(p, ClientFocusApi.MockScore(p));
    SelectMembership(t, ServerMain.Messages, 4);
    SelectMembership(t, ServerMain.Messages, 3);
  }

  /** The prediction shown for a payload: the backend's answer, or the client's
      heuristic fallback stamped `now`. */
  function Shown(d: BiometricRecord, now: string,
                 backend: BiometricRecord -> Option<ServerMain.ConcentrationPrediction>)
    : ServerMain.ConcentrationPrediction
  {
    var sent := d.(userId := ClientFocusApi.FixedUserId, timestamp := now);
    if backend(sent).Some? then backend(sent).value
    else
      var score := ClientFocusApi.MockScore(d);
      ServerMain.ConcentrationPrediction(score, ClientFocusApi.MockConfidence,
                                         ClientFocusApi.MockRecommendations(d, score), now)
  }

  /** Every query answered: the payload can be built. */
  predicate Answered(heartRates: Option<seq<HealthValue>>, steps: Option<real>,
                     sleep: Option<seq<SleepSample>>, activeEnergy: Option<seq<HealthValue>>,
                     resting: Option<seq<HealthValue>>)
  {
    heartRates.Some? && steps.Some? && sleep.Some? && activeEnergy.Some? && resting.Some?
  }

  // ---------------------------------------------------------------------------
  // The component state

  class FocusScreen {
    var isLoading: bool
    var prediction: Option<ServerMain.ConcentrationPrediction>
    /** Every value `setIsLoading` was given, in order. */
    ghost var loadingLog: seq<bool>

    constructor ()
      ensures !isLoading && prediction.None? && loadingLog == []
    {
      isLoading := false;
      prediction := None;
      loadingLog := [];
    }

    /** `fetchHealthData`: raises the loading flag, queries heart rate, steps,
        sleep, active energy and resting heart rate, builds the payload and asks
        for a prediction (which never fails); any query error skips the rest and
        keeps the old prediction. The flag is lowered in every case. */
    method FetchHealthData(now: string, heartRates: Option<seq<HealthValue>>, steps: Option<real>,
                           sleep: Option<seq<SleepSample>>, activeEnergy: Option<seq<HealthValue>>,
                           resting: Option<seq<HealthValue>>,
                           backend: BiometricRecord -> Option<ServerMain.ConcentrationPrediction>)
      returns (payload: Option<BiometricRecord>)
      modifies this
      ensures !isLoading
      ensures loadingLog == old(loadingLog) + [true, false]
      ensures payload.Some? <==> Answered(heartRates, steps, sleep, activeEnergy, resting)
      ensures payload.Some? ==>
                payload.value == Payload(now, heartRates.value, steps.value, sleep.value,
                                         activeEnergy.value, resting.value)
                && prediction == Some(Shown(payload.value, now, backend))
      ensures payload.None? ==> prediction == old(prediction)
    {
      isLoading := true;
      loadingLog := loadingLog + [true];
      payload := None;
      if Answered(heartRates, steps, sleep, activeEnergy, resting) {
        var latestHeartRate := LastValue(heartRates.value);
        var stepCount := steps.value;
        var sleepHours := CalculateSleepHours(sleep.value);
        var activityLevel := CalculateActivityLevel(ValueOrZero(Samples(activeEnergy.value)));
        var stressLevel := CalculateStressLevel(latestHeartRate, LastValue(resting.value));
        var biometricData := ClientFocusApi.BiometricRecord(
          ClientFocusApi.FixedUserId, now, latestHeartRate, sleepHours, stepCount,
          stressLevel, activityLevel, 0.0, 0.0);
        var sent, p := ClientFocusApi.PredictFocus(biometricData, now, backend);
        prediction := Some(p);
        payload := Some(biometricData);
      }
      isLoading := false;
      loadingLog := loadingLog + [false];
    }

    /** The manual button: it has no handler while a fetch is in progress, and
        otherwise starts one. */
    method PressAnalyze(now: string, heartRates: Option<seq<HealthValue>>, steps: Option<real>,
                        sleep: Option<seq<SleepSample>>, activeEnergy: Option<seq<HealthValue>>,
                        resting: Option<seq<HealthValue>>,
                        backend: BiometricRecord -> Option<ServerMain.ConcentrationPrediction>)
      returns (payload: Option<BiometricRecord>)
      modifies this
      ensures old(isLoading) ==>
                payload.None? && isLoading && prediction == old(prediction)
                && loadingLog == old(loadingLog)
      ensures !old(isLoading) ==>
                !isLoading && loadingLog == old(loadingLog) + [true, false]
                && (payload.Some? <==> Answered(heartRates, steps, sleep, activeEnergy, resting))
                && (payload.Some? ==> prediction == Some(Shown(payload.value, now, backend)))
    {
      if isLoading {
        return None;
      }
      payload := FetchHealthData(now, heartRates, steps, sleep, activeEnergy, resting, backend);
    }
  }
}
