/** The backend's `ConcentrationModel` (`HealthKit_Backend/app/model.py`): the
    feature vector handed to a trained model, the rule-based default prediction used
    when no model is loaded or the model fails, and its banded recommendations. The
    trained model itself is opaque: loading it and asking it for a prediction are
    parameters of the model (`None` when the call raises). */
module BackendModel {
  import opened Common

  /** The request dictionary: numeric values by key. */
  type HealthData = map<string, real>

  /** `health_data.get(key, default)`. */
  function Get(h: HealthData, key: string, default: real): (r: real)
    ensures key in h ==> r == h[key]
    ensures key !in h ==> r == default
  {
    if key in h then h[key] else default
  }

  function HeartRate(h: HealthData): real { Get(h, "heart_rate", 70.0) }
  function SleepHours(h: HealthData): real { Get(h, "sleep_hours", 7.0) }
  function Steps(h: HealthData): real { Get(h, "steps", 5000.0) }
  function StressLevel(h: HealthData): real { Get(h, "stress_level", 3.0) }

  // ---------------------------------------------------------------------------
  // Features

  /** The four features in the order the trained model expects them. */
  function Features(h: HealthData): seq<real>
  {
    [HeartRate(h), SleepHours(h), Steps(h) / 1000.0, StressLevel(h)]
  }

  /** `_extract_features`: appends heart rate, sleep, steps in thousands and stress,
      each read with its default. */
  method ExtractFeatures(h: HealthData) returns (features: seq<real>)
    ensures features == Features(h)
    ensures |features| == 4
    ensures features[2] * 1000.0 == Steps(h)
  {
    features := [];
    var heartRate := Get(h, "heart_rate", 70.0);
    features := features + [heartRate];
    var sleepHours := Get(h, "sleep_hours", 7.0);
    features := features + [sleepHours];
    var steps := Get(h, "steps", 5000.0);
    features := features + [steps / 1000.0];
    var stressLevel := Get(h, "stress_level", 3.0);
    features := features + [stressLevel];
  }

  /** An empty request is described by the defaults 70, 7, 5 (5000 steps) and 3. */
  lemma EmptyRequestFeatures()
    ensures Features(map[]) == [70.0, 7.0, 5.0, 3.0]
  {
  }

  // ---------------------------------------------------------------------------
  // The default prediction

  const DefaultBase: real := 75.0
  const DefaultConfidence: real := 0.7

  /** +10 for a heart rate in [60, 80], -5 below it, -10 above it. */
  function HeartRateAdjustment(heartRate: real): (a: real)
    ensures 60.0 <= heartRate <= 80.0 ==> a == 10.0
    ensures heartRate < 60.0 ==> a == -5.0
    ensures heartRate > 80.0 ==> a == -10.0
  {
    if 60.0 <= heartRate <= 80.0 then 10.0
    else if heartRate < 60.0 then -5.0
    else -10.0
  }

  /** +10 for sleep in [7, 9] hours, -5 otherwise. */
  function SleepAdjustment(sleepHours: real): (a: real)
    ensures 7.0 <= sleepHours <= 9.0 ==> a == 10.0
    ensures !(7.0 <= sleepHours <= 9.0) ==> a == -5.0
  {
    if 7.0 <= sleepHours <= 9.0 then 10.0 else -5.0
  }

  /** The default score before the clamp: base 75, both band adjustments, and three
      points per unit of stress. */
  function UnclampedDefaultScore(h: HealthData): real
  {
    DefaultBase + HeartRateAdjustment(HeartRate(h)) + SleepAdjustment(SleepHours(h))
    - StressLevel(h) * 3.0
  }

  function DefaultScore(h: HealthData): (r: real)
    ensures 0.0 <= r <= 100.0
    ensures 0.0 <= UnclampedDefaultScore(h) <= 100.0 ==> r == UnclampedDefaultScore(h)
  {
    Clamp(0.0, 100.0, UnclampedDefaultScore(h))
  }

  /** Ideal heart rate and sleep give 95 minus three points per unit of stress. */
  lemma IdealDefaultScore(h: HealthData)
    requires 60.0 <= HeartRate(h) <= 80.0 && 7.0 <= SleepHours(h) <= 9.0
    requires 0.0 <= StressLevel(h) <= 95.0 / 3.0
    ensures DefaultScore(h) == 95.0 - 3.0 * StressLevel(h)
  {
  }

  /** More stress never raises the default score. */
  lemma DefaultScoreStressMonotonic(h: HealthData, stress: real)
    requires StressLevel(h) <= stress
    ensures DefaultScore(h["stress_level" := stress]) <= DefaultScore(h)
  {
    var h' := h["stress_level" := stress];
    assert HeartRate(h') == HeartRate(h) && SleepHours(h') == SleepHours(h);
    ClampMonotonic(0.0, 100.0, UnclampedDefaultScore(h'), UnclampedDefaultScore(h));
  }

  /** Every key missing: 75 + 10 + 10 - 9. */
  lemma EmptyRequestScore()
    ensures DefaultScore(map[]) == 86.0
  {
  }

  // ---------------------------------------------------------------------------
  // Recommendations

  const LowRest: string := "충분한 휴식을 취하세요."
  const LowBreath: string := "명상이나 깊은 호흡을 시도해보세요."
  const MidExercise: string := "가벼운 운동을 통해 활력을 되찾아보세요."
  const MidWater: string := "적절한 수분 섭취를 유지하세요."
  const HighKeep: string := "현재 좋은 컨디션을 유지하고 있습니다."
  const HighRoutine: string := "이 상태를 지속하기 위해 규칙적인 생활을 유지하세요."
  const SleepAdvice: string := "수면 시간을 늘려보세요 (권장: 7-9시간)."
  const StressAdvice: string := "스트레스 관리가 필요합니다. 요가나 명상을 추천합니다."

  /** The two messages of the score band: below 50, below 70, or at least 70. */
  function BandMessages(score: real): (m: seq<string>)
    ensures |m| == 2
  {
    if score < 50.0 then [LowRest, LowBreath]
    else if score < 70.0 then [MidExercise, MidWater]
    else [HighKeep, HighRoutine]
  }

  /** The full list: the band pair, then the sleep advice when sleep is under 6
      hours, then the stress advice when stress is above 7. */
  function Recommendations(score: real, h: HealthData): seq<string>
  {
    BandMessages(score)
    + (if SleepHours(h) < 6.0 then [SleepAdvice] else [])
    + (if StressLevel(h) > 7.0 then [StressAdvice] else [])
  }

  /** `_generate_recommendations`: two appends for the band, then one per
      individual indicator. */
  method GenerateRecommendations(score: real, h: HealthData) returns (recommendations: seq<string>)
    ensures recommendations == Recommendations(score, h)
  {
    recommendations := [];
    if score < 50.0 {
      recommendations := recommendations + [LowRest];
      recommendations := recommendations + [LowBreath];
    } else if score < 70.0 {
      recommendations := recommendations + [MidExercise];
      recommendations := recommendations + [MidWater];
    } else {
      recommendations := recommendations + [HighKeep];
      recommendations := recommendations + [HighRoutine];
    }
    var sleepHours := Get(h, "sleep_hours", 7.0);
    if sleepHours < 6.0 {
      recommendations := recommendations + [SleepAdvice];
    }
    var stressLevel := Get(h, "stress_level", 3.0);
    if stressLevel > 7.0 {
      recommendations := recommendations + [StressAdvice];
    }
  }

  /** The list always opens with exactly the band pair, holds 2 to 4 messages, and
      carries the sleep and stress advice exactly when their conditions hold. */
  lemma RecommendationsShape(score: real, h: HealthData)
    ensures 2 <= |Recommendations(score, h)| <= 4
    ensures Recommendations(score, h)[..2] == BandMessages(score)
    ensures SleepAdvice in Recommendations(score, h) <==> SleepHours(h) < 6.0
    ensures StressAdvice in Recommendations(score, h) <==> StressLevel(h) > 7.0
    ensures |Recommendations(score, h)|
            == 2 + (if SleepHours(h) < 6.0 then 1 else 0) + (if StressLevel(h) > 7.0 then 1 else 0)
  {
    var r := Recommendations(score, h);
    var band := BandMessages(score);
    assert band[0] != SleepAdvice && band[1] != SleepAdvice;
    assert band[0] != StressAdvice && band[1] != StressAdvice;
    if SleepHours(h) < 6.0 {
      assert r[2] == SleepAdvice;
    }
    if StressLevel(h) > 7.0 {
      assert r[|r| - 1] == StressAdvice;
    }
  }

  /** The result dictionary of a prediction. */
  datatype Prediction = Prediction(concentrationScore: real, confidence: real,
                                   recommendations: seq<string>)

  /** `_default_prediction`: the rule-based score with confidence 0.7 and the
      recommendations for that score. */
  function DefaultPrediction(h: HealthData): (p: Prediction)
    ensures 0.0 <= p.concentrationScore <= 100.0
    ensures p.confidence == DefaultConfidence
    ensures 2 <= |p.recommendations| <= 4
  {
    RecommendationsShape(DefaultScore(h), h);
    Prediction(DefaultScore(h), DefaultConfidence, Recommendations(DefaultScore(h), h))
  }

  // ---------------------------------------------------------------------------
  // The model object

  /** A trained model read from disk; its internals are not modelled. */
  datatype TrainedModel = TrainedModel(path: string)

  class ConcentrationModel {
    var modelPath: string
    var model: Option<TrainedModel>

    /** `__init__`: remembers the path and tries to load the model at once;
        `loaded` is what `pickle.load` returned, `None` when it raised. */
    constructor (modelPath: string, loaded: Option<TrainedModel>)
      ensures this.modelPath == modelPath
      ensures model == loaded
    {
      this.modelPath := modelPath;
      model := None;
      new;
      LoadModel(loaded);
    }

    /** `load_model`: keeps the loaded model, or no model at all when loading
        raised (missing file or any other error). */
    method LoadModel(loaded: Option<TrainedModel>)
      modifies this
      ensures model == loaded
      ensures modelPath == old(modelPath)
    {
      if loaded.Some? {
        model := loaded;
      } else {
        model := None;
      }
    }

    /** `predict_concentration`: with no model, or when the trained model raises,
        the default prediction; otherwise the model's score and highest class
        probability, with the recommendations for that score. `predict` is the
        trained model applied to the feature vector. */
    method PredictConcentration(h: HealthData, predict: seq<real> -> Option<(real, real)>)
      returns (p: Prediction)
      ensures model.None? || predict(Features(h)).None? ==> p == DefaultPrediction(h)
      ensures model.Some? && predict(Features(h)).Some? ==>
                p.concentrationScore == predict(Features(h)).value.0
                && p.confidence == predict(Features(h)).value.1
                && p.recommendations == Recommendations(p.concentrationScore, h)
    {
      if model.None? {
        p := DefaultPrediction(h);
        return;
      }
      var features := ExtractFeatures(h);
      var output := predict(features);
      if output.None? {
        p := DefaultPrediction(h);
        return;
      }
      var recommendations := GenerateRecommendations(output.value.0, h);
      p := Prediction(output.value.0, output.value.1, recommendations);
    }
  }

  /** Without a trained model every prediction is the bounded default with
      confidence 0.7, whatever the request holds. */
  lemma WithoutModelDefaultBounds(h: HealthData)
    ensures 0.0 <= DefaultPrediction(h).concentrationScore <= 100.0
    ensures DefaultPrediction(h).recommendations[..2] == BandMessages(DefaultScore(h))
  {
    RecommendationsShape(DefaultScore(h), h);
  }
}
