/** The request and response schemas of the backend (`HealthKit_Backend/app/schemas.py`):
    which fields are required, the default of every optional field, and the bounds
    that validation enforces. A raw request field is missing, an explicit `null`, or
    a value; validation either builds the schema object or reports the fields that
    broke their bounds. */
module BackendSchemas {
  import opened Common

  /** One field of a raw JSON body. */
  datatype Field<T> = Missing | Null | Given(value: T)

  /** An optional field with a default: the default when missing, nothing for an
      explicit null, the value otherwise. */
  function WithDefault<T>(f: Field<T>, default: T): (r: Option<T>)
    ensures f.Missing? ==> r == Some(default)
    ensures f.Null? ==> r.None?
    ensures f.Given? ==> r == Some(f.value)
  {
    match f
    case Missing => Some(default)
    case Null => None
    case Given(v) => Some(v)
  }

  /** An optional field whose default is `None`. */
  function Optional<T>(f: Field<T>): (r: Option<T>)
    ensures r.Some? <==> f.Given?
  {
    if f.Given? then Some(f.value) else None
  }

  /** Absent values satisfy every bound; present ones must lie in [lo, hi]. */
  predicate IntIn(x: Option<int>, lo: int, hi: int)
  {
    x.None? || lo <= x.value <= hi
  }

  predicate IntAtLeast(x: Option<int>, lo: int)
  {
    x.None? || lo <= x.value
  }

  predicate RealIn(x: Option<real>, lo: real, hi: real)
  {
    x.None? || lo <= x.value <= hi
  }

  predicate RealAtLeast(x: Option<real>, lo: real)
  {
    x.None? || lo <= x.value
  }

  // ---------------------------------------------------------------------------
  // HealthDataInput

  datatype HealthDataInput = HealthDataInput(
    heartRate: Option<int>,
    sleepHours: Option<real>,
    steps: Option<int>,
    stressLevel: Option<int>,
    activityLevel: Option<int>,
    caffeineIntake: Option<int>,
    waterIntake: Option<real>)

  datatype RawHealthData = RawHealthData(
    heartRate: Field<int>,
    sleepHours: Field<real>,
    steps: Field<int>,
    stressLevel: Field<int>,
    activityLevel: Field<int>,
    caffeineIntake: Field<int>,
    waterIntake: Field<real>)

  /** Heart rate in [40, 200], sleep in [0, 24] hours, steps at least 0, stress and
      activity in [1, 10], caffeine in [0, 10] cups, water at least 0 litres. */
  predicate ValidHealthData(x: HealthDataInput)
  {
    IntIn(x.heartRate, 40, 200) && RealIn(x.sleepHours, 0.0, 24.0) && IntAtLeast(x.steps, 0)
    && IntIn(x.stressLevel, 1, 10) && IntIn(x.activityLevel, 1, 10)
    && IntIn(x.caffeineIntake, 0, 10) && RealAtLeast(x.waterIntake, 0.0)
  }

  /** The object a raw body describes once every default is filled in. */
  function ApplyHealthDefaults(raw: RawHealthData): HealthDataInput
  {
    HealthDataInput(
      WithDefault(raw.heartRate, 70),
      WithDefault(raw.sleepHours, 7.0),
      WithDefault(raw.steps, 5000),
      WithDefault(raw.stressLevel, 3),
      WithDefault(raw.activityLevel, 3),
      WithDefault(raw.caffeineIntake, 1),
      WithDefault(raw.waterIntake, 2.0))
  }

  /** The names of the fields whose value breaks its bound. */
  function HealthDataViolations(raw: RawHealthData): set<string>
  {
    var x := ApplyHealthDefaults(raw);
    (if IntIn(x.heartRate, 40, 200) then {} else {"heart_rate"})
    + (if RealIn(x.sleepHours, 0.0, 24.0) then {} else {"sleep_hours"})
    + (if IntAtLeast(x.steps, 0) then {} else {"steps"})
    + (if IntIn(x.stressLevel, 1, 10) then {} else {"stress_level"})
    + (if IntIn(x.activityLevel, 1, 10) then {} else {"activity_level"})
    + (if IntIn(x.caffeineIntake, 0, 10) then {} else {"caffeine_intake"})
    + (if RealAtLeast(x.waterIntake, 0.0) then {} else {"water_intake"})
  }

  /** Validation of a `HealthDataInput` body: the object when no field breaks its
      bound, nothing otherwise. */
  function ValidateHealthData(raw: RawHealthData): (r: Option<HealthDataInput>)
    ensures r.Some? <==> HealthDataViolations(raw) == {}
    ensures r.Some? ==> ValidHealthData(r.value) && r.value == ApplyHealthDefaults(raw)
  {
    if HealthDataViolations(raw) == {} then Some(ApplyHealthDefaults(raw)) else None
  }

  /** A field is reported exactly when its value is present and out of bounds; for
      the heart rate and the stress level, the fields the scorers weigh most. */
  lemma HeartRateViolation(raw: RawHealthData)
    ensures "heart_rate" in HealthDataViolations(raw)
            <==> raw.heartRate.Given? && !(40 <= raw.heartRate.value <= 200)
    ensures "stress_level" in HealthDataViolations(raw)
            <==> raw.stressLevel.Given? && !(1 <= raw.stressLevel.value <= 10)
  {
  }

  /** An empty body is valid: every default lies within its own bound. */
  lemma DefaultsAreValid()
    ensures ValidateHealthData(RawHealthData(Missing, Missing, Missing, Missing, Missing, Missing, Missing))
            == Some(HealthDataInput(Some(70), Some(7.0), Some(5000), Some(3), Some(3), Some(1), Some(2.0)))
  {
    var raw := RawHealthData(Missing, Missing, Missing, Missing, Missing, Missing, Missing);
    assert HealthDataViolations(raw) == {};
  }

  /** The documented example body is valid and kept as given. */
  lemma ExampleIsValid()
    ensures ValidateHealthData(RawHealthData(Given(75), Given(7.5), Given(8000), Given(4),
                                             Given(6), Given(2), Given(2.5)))
            == Some(HealthDataInput(Some(75), Some(7.5), Some(8000), Some(4), Some(6), Some(2), Some(2.5)))
  {
    var raw := RawHealthData(Given(75), Given(7.5), Given(8000), Given(4), Given(6), Given(2), Given(2.5));
    assert HealthDataViolations(raw) == {};
  }

  /** Filling in defaults never turns a body that validates into an invalid one,
      and every field the body gives is kept as given. */
  lemma ValidatedKeepsGivenFields(raw: RawHealthData)
    requires ValidateHealthData(raw).Some?
    ensures raw.heartRate.Given? ==> ValidateHealthData(raw).value.heartRate == Some(raw.heartRate.value)
    ensures raw.sleepHours.Given? ==> ValidateHealthData(raw).value.sleepHours == Some(raw.sleepHours.value)
    ensures raw.steps.Given? ==> ValidateHealthData(raw).value.steps == Some(raw.steps.value)
    ensures raw.stressLevel.Given? ==> ValidateHealthData(raw).value.stressLevel == Some(raw.stressLevel.value)
    ensures raw.activityLevel.Given? ==> ValidateHealthData(raw).value.activityLevel == Some(raw.activityLevel.value)
    ensures raw.caffeineIntake.Given? ==> ValidateHealthData(raw).value.caffeineIntake == Some(raw.caffeineIntake.value)
    ensures raw.waterIntake.Given? ==> ValidateHealthData(raw).value.waterIntake == Some(raw.waterIntake.value)
  {
  }

  // ---------------------------------------------------------------------------
  // UserProfile

  datatype UserProfile = UserProfile(
    userId: string,
    name: string,
    age: Option<int>,
    gender: Option<string>,
    height: Option<real>,
    weight: Option<real>,
    activityGoal: Option<int>)

  datatype RawUserProfile = RawUserProfile(
    userId: Field<string>,
    name: Field<string>,
    age: Field<int>,
    gender: Field<string>,
    height: Field<real>,
    weight: Field<real>,
    activityGoal: Field<int>)

  /** Age in [1, 150], height in [50, 300] cm, weight in [20, 500] kg, when given. */
  predicate ValidProfile(p: UserProfile)
  {
    IntIn(p.age, 1, 150) && RealIn(p.height, 50.0, 300.0) && RealIn(p.weight, 20.0, 500.0)
  }

  /** Validation of a `UserProfile` body: the user id and the name are required,
      the age, gender, height and weight default to nothing, and the step goal to
      10000. */
  function ValidateProfile(raw: RawUserProfile): (r: Option<UserProfile>)
    ensures r.Some? ==> ValidProfile(r.value)
    ensures r.Some? ==> raw.userId.Given? && r.value.userId == raw.userId.value
                        && raw.name.Given? && r.value.name == raw.name.value
    ensures r.Some? && raw.activityGoal.Missing? ==> r.value.activityGoal == Some(10000)
    ensures r.Some? ==> r.value.age == Optional(raw.age) && r.value.gender == Optional(raw.gender)
                        && r.value.height == Optional(raw.height)
                        && r.value.weight == Optional(raw.weight)
                        && r.value.activityGoal == WithDefault(raw.activityGoal, 10000)
    ensures r.Some? <==> raw.userId.Given? && raw.name.Given?
                         && IntIn(Optional(raw.age), 1, 150)
                         && RealIn(Optional(raw.height), 50.0, 300.0)
                         && RealIn(Optional(raw.weight), 20.0, 500.0)
  {
    if !raw.userId.Given? || !raw.name.Given? then None
    else
      var p := UserProfile(raw.userId.value, raw.name.value, Optional(raw.age),
                           Optional(raw.gender), Optional(raw.height), Optional(raw.weight),
                           WithDefault(raw.activityGoal, 10000));
      if ValidProfile(p) then Some(p) else None
  }

  /** A profile with only the required fields is valid, with no age, height or
      weight and the default step goal. */
  lemma MinimalProfile(userId: string, name: string)
    ensures ValidateProfile(RawUserProfile(Given(userId), Given(name), Missing, Missing,
                                           Missing, Missing, Missing))
            == Some(UserProfile(userId, name, None, None, None, None, Some(10000)))
  {
  }

  // ---------------------------------------------------------------------------
  // HealthMetrics

  datatype HealthMetrics = HealthMetrics(
    userId: string,
    date: string,
    heartRateAvg: Option<real>,
    heartRateResting: Option<real>,
    sleepDuration: Option<real>,
    sleepQuality: Option<real>,
    stepsCount: Option<int>,
    activeCalories: Option<real>)

  datatype RawHealthMetrics = RawHealthMetrics(
    userId: Field<string>,
    date: Field<string>,
    heartRateAvg: Field<real>,
    heartRateResting: Field<real>,
    sleepDuration: Field<real>,
    sleepQuality: Field<real>,
    stepsCount: Field<int>,
    activeCalories: Field<real>)

  /** Validation of a `HealthMetrics` body: the user id and the date are required,
      every metric may be missing, and no metric has a bound. */
  function ValidateMetrics(raw: RawHealthMetrics): (r: Option<HealthMetrics>)
    ensures r.Some? <==> raw.userId.Given? && raw.date.Given?
    ensures r.Some? ==> r.value.userId == raw.userId.value && r.value.date == raw.date.value
    ensures r.Some? ==> r.value.heartRateAvg == Optional(raw.heartRateAvg)
                        && r.value.heartRateResting == Optional(raw.heartRateResting)
                        && r.value.sleepDuration == Optional(raw.sleepDuration)
                        && r.value.sleepQuality == Optional(raw.sleepQuality)
                        && r.value.stepsCount == Optional(raw.stepsCount)
                        && r.value.activeCalories == Optional(raw.activeCalories)
  {
    if raw.userId.Given? && raw.date.Given? then
      Some(HealthMetrics(raw.userId.value, raw.date.value, Optional(raw.heartRateAvg),
                         Optional(raw.heartRateResting), Optional(raw.sleepDuration),
                         Optional(raw.sleepQuality), Optional(raw.stepsCount),
                         Optional(raw.activeCalories)))
    else None
  }

  /** Any metric body with both required fields validates, whatever the metrics. */
  lemma MetricsOnlyNeedIdAndDate(raw: RawHealthMetrics)
    requires raw.userId.Given? && raw.date.Given?
    ensures ValidateMetrics(raw).Some?
    ensures ValidateMetrics(raw).value.stepsCount.Some? <==> raw.stepsCount.Given?
    ensures raw.heartRateAvg.Given? ==> ValidateMetrics(raw).value.heartRateAvg == Some(raw.heartRateAvg.value)
  {
  }

  // ---------------------------------------------------------------------------
  // ConcentrationAnalysis

  datatype ConcentrationAnalysis = ConcentrationAnalysis(
    dailyAverage: real,
    weeklyTrend: seq<real>,
    peakHours: seq<int>,
    improvementAreas: seq<string>)

  /** Validation of a `ConcentrationAnalysis`: the four fields are required and
      carry no bound, so no trend length or hour range is enforced. */
  function ValidateAnalysis(dailyAverage: Field<real>, weeklyTrend: Field<seq<real>>,
                            peakHours: Field<seq<int>>, improvementAreas: Field<seq<string>>)
    : (r: Option<ConcentrationAnalysis>)
    ensures r.Some? <==> dailyAverage.Given? && weeklyTrend.Given? && peakHours.Given?
                         && improvementAreas.Given?
    ensures r.Some? ==> r.value.dailyAverage == dailyAverage.value
                        && r.value.weeklyTrend == weeklyTrend.value
                        && r.value.peakHours == peakHours.value
                        && r.value.improvementAreas == improvementAreas.value
  {
    if dailyAverage.Given? && weeklyTrend.Given? && peakHours.Given? && improvementAreas.Given?
    then Some(ConcentrationAnalysis(dailyAverage.value, weeklyTrend.value, peakHours.value,
                                    improvementAreas.value))
    else None
  }

  /** An analysis with an out-of-range hour and an empty trend still validates. */
  lemma AnalysisHasNoBounds()
    ensures ValidateAnalysis(Given(75.2), Given([]), Given([25, -1]), Given([])).Some?
  {
  }
}
