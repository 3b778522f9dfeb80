/** The FastAPI server of `main.py`: the heuristic concentration scorer, its
    recommendation list, and the three in-memory dictionaries the request handlers
    read and update. HTTP routing, CORS and the clock are not part of the model: the
    current time reaches the handlers as a parameter. */
module ServerMain {
  import opened Common

  /** `BiometricData`: the request body of `/predict/concentration` and
      `/api/health-metrics`. */
  datatype BiometricData = BiometricData(
    userId: string,
    timestamp: string,
    heartRate: real,
    sleepHours: real,
    steps: int,
    stressLevel: real,
    activityLevel: real,
    caffeineIntake: real,
    waterIntake: real)

  datatype ConcentrationPrediction = ConcentrationPrediction(
    concentrationScore: real,
    confidence: real,
    recommendations: seq<string>,
    timestamp: string)

  datatype FocusAnalysis = FocusAnalysis(
    dailyAverage: real,
    weeklyTrend: seq<real>,
    peakHours: seq<string>,
    improvementAreas: seq<string>)

  datatype UserProfile = UserProfile(
    userId: string,
    name: string,
    age: int,
    gender: string,
    height: real,
    weight: real,
    activityGoal: int)

  // ---------------------------------------------------------------------------
  // Scoring

  const BaseScore: real := 70.0
  const PredictionConfidence: real := 0.8

  /** The sum of the base score and every adjustment, before the clamp. */
  function UnclampedScore(d: BiometricData): real
  {
    BaseScore
    + (if d.sleepHours < 6.0 then -10.0 else if d.sleepHours > 8.0 then -5.0 else 0.0)
    - d.stressLevel * 2.0
    + (if d.steps < 5000 then -5.0 else if d.steps > 10000 then 5.0 else 0.0)
    + (if d.caffeineIntake > 200.0 then -5.0 else 0.0)
    + (if d.waterIntake < 1500.0 then -5.0 else 0.0)
  }

  /** The score `calculate_concentration_score` returns: the adjusted sum, clamped to
      [0, 100]. */
  function ConcentrationScore(d: BiometricData): (r: real)
    ensures 0.0 <= r <= 100.0
    ensures 0.0 <= UnclampedScore(d) <= 100.0 ==> r == UnclampedScore(d)
  {
    Clamp(0.0, 100.0, UnclampedScore(d))
  }

  /** `calculate_concentration_score`: starts at 70 and adjusts a local score
      step by step. */
  method CalculateConcentrationScore(d: BiometricData) returns (score: real)
    ensures 0.0 <= score <= 100.0
    ensures score == ConcentrationScore(d)
  {
    score := 70.0;
    if d.sleepHours < 6.0 {
      score := score - 10.0;
    } else if d.sleepHours > 8.0 {
      score := score - 5.0;
    }
    score := score - d.stressLevel * 2.0;
    if d.steps < 5000 {
      score := score - 5.0;
    } else if d.steps > 10000 {
      score := score + 5.0;
    }
    if d.caffeineIntake > 200.0 {
      score := score - 5.0;
    }
    if d.waterIntake < 1500.0 {
      score := score - 5.0;
    }
    score := Clamp(0.0, 100.0, score);
  }

  /** Inputs that trigger no adjustment: sleep in [6, 8], no stress, steps in
      [5000, 10000], at most 200 caffeine and at least 1500 water. */
  predicate Neutral(d: BiometricData)
  {
    6.0 <= d.sleepHours <= 8.0 && d.stressLevel == 0.0 && 5000 <= d.steps <= 10000
    && d.caffeineIntake <= 200.0 && 1500.0 <= d.waterIntake
  }

  /** With no adjustment triggered, the score is the base score 70. */
  lemma NeutralScoreIsBase(d: BiometricData)
    requires Neutral(d)
    ensures ConcentrationScore(d) == 70.0
  {
  }

  /** Sleeping less than 6 hours costs exactly 10 points against a neutral night,
      and more than 8 hours costs exactly 5: at most one sleep adjustment applies. */
  lemma SleepAdjustment(d: BiometricData, hours: real)
    requires 6.0 <= d.sleepHours <= 8.0
    ensures hours < 6.0 ==> UnclampedScore(d.(sleepHours := hours)) == UnclampedScore(d) - 10.0
    ensures hours > 8.0 ==> UnclampedScore(d.(sleepHours := hours)) == UnclampedScore(d) - 5.0
    ensures 6.0 <= hours <= 8.0 ==> UnclampedScore(d.(sleepHours := hours)) == UnclampedScore(d)
  {
  }

  /** Each unit of stress costs exactly 2 points before the clamp, and more stress
      never raises the clamped score. */
  lemma StressAdjustment(d: BiometricData, stress: real)
    ensures UnclampedScore(d.(stressLevel := stress))
            == UnclampedScore(d) - 2.0 * (stress - d.stressLevel)
    ensures stress >= d.stressLevel ==>
              ConcentrationScore(d.(stressLevel := stress)) <= ConcentrationScore(d)
  {
    if stress >= d.stressLevel {
      ClampMonotonic(0.0, 100.0, UnclampedScore(d.(stressLevel := stress)), UnclampedScore(d));
    }
  }

  /** Fewer than 5000 steps cost 5 points and more than 10000 earn 5, against a
      count in [5000, 10000]. */
  lemma StepsAdjustment(d: BiometricData, steps: int)
    requires 5000 <= d.steps <= 10000
    ensures steps < 5000 ==> UnclampedScore(d.(steps := steps)) == UnclampedScore(d) - 5.0
    ensures steps > 10000 ==> UnclampedScore(d.(steps := steps)) == UnclampedScore(d) + 5.0
  {
  }

  /** Caffeine above 200 and water below 1500 each cost 5 points, independently of
      each other. */
  lemma IntakeAdjustments(d: BiometricData, caffeine: real, water: real)
    requires d.caffeineIntake <= 200.0 && d.waterIntake >= 1500.0
    ensures UnclampedScore(d.(caffeineIntake := caffeine, waterIntake := water))
            == UnclampedScore(d)
               - (if caffeine > 200.0 then 5.0 else 0.0)
               - (if water < 1500.0 then 5.0 else 0.0)
  {
  }

  /** With a non-negative stress level the score never exceeds 75: the steps bonus
      is the only positive adjustment. */
  lemma ScoreCeiling(d: BiometricData)
    requires d.stressLevel >= 0.0
    ensures ConcentrationScore(d) <= 75.0
  {
  }

  // ---------------------------------------------------------------------------
  // Recommendations

  const SleepMessage: string := "수면 시간을 늘리는 것이 좋습니다."
  const StressMessage: string := "스트레스 관리가 필요합니다."
  const ActivityMessage: string := "활동량을 늘리는 것이 좋습니다."
  const CaffeineMessage: string := "카페인 섭취를 줄이는 것이 좋습니다."
  const WaterMessage: string := "수분 섭취를 늘리는 것이 좋습니다."
  const OverallMessage: string := "전반적인 건강 관리가 필요합니다."

  /** The six messages, in the order `generate_recommendations` checks them. */
  const Messages: seq<string> :=
    [SleepMessage, StressMessage, ActivityMessage, CaffeineMessage, WaterMessage, OverallMessage]

  /** Which of the six conditions hold, in the same order as `Messages`. */
  function Triggers(d: BiometricData, score: real): seq<bool>
  {
    [d.sleepHours < 6.0, d.stressLevel > 5.0, d.steps < 5000,
     d.caffeineIntake > 200.0, d.waterIntake < 1500.0, score < 60.0]
  }

  /** The recommendation list: the message of every condition that holds, in the
      fixed order. */
  function Recommendations(d: BiometricData, score: real): seq<string>
  {
    Select(Triggers(d, score), Messages)
  }

  /** `generate_recommendations`: one `append` per condition that holds. */
  method GenerateRecommendations(d: BiometricData, score: real) returns (recommendations: seq<string>)
    ensures recommendations == Recommendations(d, score)
  {
    recommendations := [];
    ghost var r0 := recommendations;
    if d.sleepHours < 6.0 {
      recommendations := recommendations + [SleepMessage];
    }
    assert recommendations == AppendIf(r0, d.sleepHours < 6.0, SleepMessage);
    ghost var r1 := recommendations;
    if d.stressLevel > 5.0 {
      recommendations := recommendations + [StressMessage];
    }
    assert recommendations == AppendIf(r1, d.stressLevel > 5.0, StressMessage);
    ghost var r2 := recommendations;
    if d.steps < 5000 {
      recommendations := recommendations + [ActivityMessage];
    }
    assert recommendations == AppendIf(r2, d.steps < 5000, ActivityMessage);
    ghost var r3 := recommendations;
    if d.caffeineIntake > 200.0 {
      recommendations := recommendations + [CaffeineMessage];
    }
    assert recommendations == AppendIf(r3, d.caffeineIntake > 200.0, CaffeineMessage);
    ghost var r4 := recommendations;
    if d.waterIntake < 1500.0 {
      recommendations := recommendations + [WaterMessage];
    }
    assert recommendations == AppendIf(r4, d.waterIntake < 1500.0, WaterMessage);
    ghost var r5 := recommendations;
    if score < 60.0 {
      recommendations := recommendations + [OverallMessage];
    }
    assert recommendations == AppendIf(r5, score < 60.0, OverallMessage);
    SelectSix(Triggers(d, score), Messages);
  }

  /** A message appears exactly when its condition holds; the list holds one
      message per true condition and is empty exactly when no condition holds. */
  lemma RecommendationsFollowConditions(d: BiometricData, score: real, i: nat)
    requires i < 6
    ensures Messages[i] in Recommendations(d, score) <==> Triggers(d, score)[i]
    ensures |Recommendations(d, score)| == CountTrue(Triggers(d, score))
    ensures Recommendations(d, score) == [] <==>
              !(d.sleepHours < 6.0 || d.stressLevel > 5.0 || d.steps < 5000
                || d.caffeineIntake > 200.0 || d.waterIntake < 1500.0 || score < 60.0)
  {
    SelectMembership(Triggers(d, score), Messages, i);
    SelectLength(Triggers(d, score), Messages);
    var t := Triggers(d, score);
    assert (forall k :: 0 <= k < |t| ==> !t[k]) <==> !t[0] && !t[1] && !t[2] && !t[3] && !t[4] && !t[5];
  }

  // ---------------------------------------------------------------------------
  // The in-memory stores

  const SuccessMessage: string := "Health metrics saved successfully"

  /** The profile `get_user_profile` creates for an unknown user. */
  function DefaultProfile(userId: string): (p: UserProfile)
    ensures p.userId == userId && p.name == "Test User" && p.age == 30
    ensures p.gender == "male" && p.height == 175.0 && p.weight == 70.0
    ensures p.activityGoal == 10000
  {
    UserProfile(userId, "Test User", 30, "male", 175.0, 70.0, 10000)
  }

  /** The fixed analysis `get_focus_pattern` returns, whoever asks and for whatever
      dates. */
  const FixedFocusPattern: FocusAnalysis :=
    FocusAnalysis(75.5, [70.0, 72.0, 75.0, 73.0, 78.0, 76.0, 74.0],
                  ["09:00", "14:00", "16:00"], ["수면 시간", "스트레스 관리"])

  /** The server process: the module-level dictionaries `user_profiles`,
      `biometric_data` and `focus_predictions`. */
  class FocusServer {
    var userProfiles: map<string, UserProfile>
    var biometricData: map<string, seq<BiometricData>>
    var focusPredictions: map<string, ConcentrationPrediction>

    /** The dictionaries start empty. */
    constructor ()
      ensures userProfiles == map[] && biometricData == map[] && focusPredictions == map[]
    {
      userProfiles := map[];
      biometricData := map[];
      focusPredictions := map[];
    }

    /** The stored history of one user, empty when the user has none. */
    function History(userId: string): seq<BiometricData>
      reads this
    {
      if userId in biometricData then biometricData[userId] else []
    }

    /** `predict_concentration`: scores the data, builds the recommendations, and
        overwrites the user's stored prediction; nothing else changes. */
    method PredictConcentration(data: BiometricData, now: string) returns (prediction: ConcentrationPrediction)
      modifies this
      ensures prediction.concentrationScore == ConcentrationScore(data)
      ensures prediction.confidence == PredictionConfidence
      ensures prediction.recommendations == Recommendations(data, prediction.concentrationScore)
      ensures prediction.timestamp == now
      ensures focusPredictions == old(focusPredictions)[data.userId := prediction]
      ensures userProfiles == old(userProfiles) && biometricData == old(biometricData)
    {
      var score := CalculateConcentrationScore(data);
      var recommendations := GenerateRecommendations(data, score);
      prediction := ConcentrationPrediction(score, PredictionConfidence, recommendations, now);
      focusPredictions := focusPredictions[data.userId := prediction];
    }

    /** `save_health_metrics`: appends the record to its user's list, creating the
        list when absent; earlier records and other users are untouched. */
    method SaveHealthMetrics(data: BiometricData) returns (message: string)
      modifies this
      ensures message == SuccessMessage
      ensures biometricData == old(biometricData)[data.userId := old(History(data.userId)) + [data]]
      ensures forall u :: u != data.userId ==> History(u) == old(History(u))
      ensures userProfiles == old(userProfiles) && focusPredictions == old(focusPredictions)
    {
      if data.userId !in biometricData {
        biometricData := biometricData[data.userId := []];
      }
      biometricData := biometricData[data.userId := biometricData[data.userId] + [data]];
      message := SuccessMessage;
    }

    /** `get_user_profile`: creates the default profile only when the user has none,
        and otherwise returns the stored one unchanged. */
    method GetUserProfile(userId: string) returns (profile: UserProfile)
      modifies this
      ensures userId in old(userProfiles) ==>
                profile == old(userProfiles)[userId] && userProfiles == old(userProfiles)
      ensures userId !in old(userProfiles) ==>
                profile == DefaultProfile(userId) && userProfiles == old(userProfiles)[userId := profile]
      ensures userId in userProfiles && userProfiles[userId] == profile
      ensures biometricData == old(biometricData) && focusPredictions == old(focusPredictions)
    {
      if userId !in userProfiles {
        userProfiles := userProfiles[userId := DefaultProfile(userId)];
      }
      profile := userProfiles[userId];
    }

    /** Two profile requests for the same user return the same stored profile. */
    method GetUserProfileTwice(userId: string) returns (first: UserProfile, second: UserProfile)
      modifies this
      ensures first == second
      ensures old(userId in userProfiles) ==> first == old(userProfiles[userId])
    {
      first := GetUserProfile(userId);
      second := GetUserProfile(userId);
    }
  }

  /** `get_focus_pattern`: the same fixed analysis for every user and every date
      range, with a seven-day trend. */
  function GetFocusPattern(userId: string, startDate: Option<string>, endDate: Option<string>): (a: FocusAnalysis)
    ensures |a.weeklyTrend| == 7 && |a.peakHours| == 3 && |a.improvementAreas| == 2
  {
    FixedFocusPattern
  }

  /** The analysis depends neither on the user nor on the dates. */
  lemma FocusPatternIgnoresArguments(u1: string, s1: Option<string>, e1: Option<string>,
                                     u2: string, s2: Option<string>, e2: Option<string>)
    ensures GetFocusPattern(u1, s1, e1) == GetFocusPattern(u2, s2, e2)
  {
  }
}
