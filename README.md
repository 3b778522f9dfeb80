# healthkitapp — a Dafny model of its scoring, normalisation and state rules

healthkitapp is a React Native app with two Python backends. It reads heart rate,
steps, sleep and active energy from Apple HealthKit. From these it builds a
biometric record, asks a FastAPI server for a concentration score with
recommendations, and shows the result on several screens and an Apple Watch card.

This project models the deterministic rules underneath that code, one Dafny module
per source file:

- `ServerMain` (`main.py`): the heuristic scorer, the recommendation list, and the
  three in-memory dictionaries the request handlers update.
- `ClientFocusApi` (`services/FocusAnalysisAPI.ts`): the client's offline
  copy of the scorer, the prediction request with its fallback, and the offline
  queue over an abstract key-value store.
- `BackendModel` (`HealthKit_Backend/app/model.py`): the second scorer (base 75,
  heart-rate and sleep bands), feature extraction, banded recommendations and the
  no-model fallback.
- `BackendSchemas` (`HealthKit_Backend/app/schemas.py`): per-field bounds, defaults
  and required fields, as validation functions over raw bodies.
- `PredictionApi` (`api/FocusAnalysisAPI.ts`): the in-place rewrite of a
  loosely shaped prediction response, the default response, and the mock focus
  pattern.
- `HealthKitService` (`services/HealthKitService.ts`): the sample reducers, the
  24/7/30-slot bucketing into rounded means, the series statistics, the in-place
  reversal and the dummy series.
- `FocusScreenComponent`, `HeartRateChartComponent`, `FocusDetailedComponent`,
  `ConcentrationPredictorComponent`, `GaugeChartComponent`: the screens' derived
  values and their state updates.
- `WatchConnectivityComponent` (`WatchConnectivity.tsx`): the Watch card's
  connection flags, its bounded debug log, its event listeners and its status
  precedence.
- `Common`: shared helpers — `Option`, JavaScript `Math.round`, the clamp, `join`,
  decimal formatting and an order-preserving filter.

Scores are `real`, counts are `int`. JavaScript `Math.round(x)` is modelled exactly
as `⌊x + 0.5⌋`. Every native call and HTTP request becomes a parameter: an
`Option` (`None` when the call failed) or, on the Watch card, a `Query`
(`Threw(error)` or `Answered(value)`). Device storage is a map whose reads and
writes always succeed. The clock is a parameter too: `now`,
the hour, the weekday, and date-label functions. Each `Math.random` draw is
`rand(i)`, reduced into the range the source scales it to. Code that mutates state
is modelled as classes with `modifies` clauses: the server dictionaries, the
client's storage, the response object rewritten in place, the screens' component
state and the Watch card. The in-place `reverse()` and the slot-accumulation loops
are methods proved against specification functions.

## Model

| member | source | states |
|---|---|---|
| ServerMain.ConcentrationScore | main.py:123-150 | The score lies in [0, 100]; when the base 70 plus all adjustments already lies in [0, 100], it is exactly that sum. |
| ServerMain.CalculateConcentrationScore | main.py:123-150 | The step-by-step reassignment of the local score ends in [0, 100] and equals `ConcentrationScore`. |
| ServerMain.NeutralScoreIsBase | main.py:125 | When no condition triggers an adjustment, the score is the base 70. |
| ServerMain.SleepAdjustment | main.py:127-131 | Against a night of 6–8 hours, sleep under 6 costs exactly 10 points and sleep over 8 costs exactly 5; at most one sleep adjustment applies. |
| ServerMain.StressAdjustment | main.py:134 | Each unit of stress costs exactly 2 points before the clamp; more stress never raises the clamped score. |
| ServerMain.StepsAdjustment | main.py:137-140 | Against 5000–10000 steps, fewer than 5000 cost 5 points and more than 10000 earn 5. |
| ServerMain.IntakeAdjustments | main.py:143-148 | Caffeine over 200 and water under 1500 each cost 5 points, independently of each other. |
| ServerMain.ScoreCeiling | main.py:123-150 | With non-negative stress the score never exceeds 75, because the steps bonus is the only positive adjustment. |
| ServerMain.GenerateRecommendations | main.py:152-174 | The appended list is exactly the messages of the true conditions, in the fixed order sleep, stress, steps, caffeine, water, low score. |
| ServerMain.RecommendationsFollowConditions | main.py:152-174 | Each message appears iff its condition holds; the length is the number of true conditions; the list is empty iff no condition holds. |
| ServerMain.DefaultProfile | main.py:110-118 | The created profile carries the requested user id, the name "Test User", age 30, gender "male", height 175, weight 70 and a step goal of 10000. |
| ServerMain.FocusServer.constructor | main.py:53-55 | The three dictionaries start empty. |
| ServerMain.FocusServer.PredictConcentration | main.py:57-75 | The prediction has the clamped score, confidence 0.8, the recommendations for that score and the given time; it overwrites only this user's stored prediction; the other two dictionaries are unchanged. |
| ServerMain.FocusServer.SaveHealthMetrics | main.py:79-86 | The record is appended to its user's list, created empty when absent; every other user's history and the other dictionaries are unchanged. |
| ServerMain.FocusServer.GetUserProfile | main.py:104-119 | A stored profile is returned unchanged; otherwise the default profile is created and stored; afterwards the user's entry is the returned profile. |
| ServerMain.FocusServer.GetUserProfileTwice | main.py:108-119 | Two profile requests for the same user return the same profile, the stored one if it existed before. |
| ServerMain.GetFocusPattern | main.py:90-100 | The fixed analysis has a 7-day trend, 3 peak hours and 2 improvement areas. |
| ServerMain.FocusPatternIgnoresArguments | main.py:90-100 | The analysis depends neither on the user nor on the dates. |
| ClientFocusApi.FromServer | services/FocusAnalysisAPI.ts:49-59 | The client record for a server record carries the same nine fields, each equal to the server's, with the step count as a JavaScript number. |
| ClientFocusApi.MockScore | services/FocusAnalysisAPI.ts:225 | The mock score lies in [0, 100]. |
| ClientFocusApi.CalculateMockScore | services/FocusAnalysisAPI.ts:205-226 | The reassigned local score ends in [0, 100] and equals `MockScore`. |
| ClientFocusApi.GenerateMockRecommendations | services/FocusAnalysisAPI.ts:228-256 | The pushed list is exactly the messages of the six true conditions, in order. |
| ClientFocusApi.MockAgreesWithServer | services/FocusAnalysisAPI.ts:205-256 | On the same fields, the client's mock score equals `calculate_concentration_score` and its recommendations equal `generate_recommendations` of main.py. |
| ClientFocusApi.GetMockPrediction | services/FocusAnalysisAPI.ts:193-203 | Score and recommendations come from the two helpers; confidence is 0.8; the timestamp is the current time. |
| ClientFocusApi.PredictFocus | services/FocusAnalysisAPI.ts:91-114 | The sent record always has user id 'user123' and the current time; the backend's answer is returned when there is one, otherwise the mock prediction of the caller's record, never an error. |
| ClientFocusApi.FallbackIsServerHeuristic | services/FocusAnalysisAPI.ts:108-113 | A fallback prediction has the score and recommendations main.py would give the same record. |
| ClientFocusApi.GetUserFocusPattern | services/FocusAnalysisAPI.ts:132-146 | There is no fallback: a failed request gives no analysis (the error propagates); a successful one gives the backend's analysis. |
| ClientFocusApi.ResendPartition | services/FocusAnalysisAPI.ts:180-182 | Each queued record is either accepted or failed on resend, never both and never lost: the two multisets add up to the queue. |
| ClientFocusApi.AllAccepted | services/FocusAnalysisAPI.ts:180-182 | When every resend succeeds, every queued record reaches the backend in order and none fails. |
| ClientFocusApi.FocusAnalysisClient.constructor | services/FocusAnalysisAPI.ts:259-260 | The client starts with the given device storage and nothing posted. |
| ClientFocusApi.FocusAnalysisClient.SaveOfflineData | services/FocusAnalysisAPI.ts:164-173 | The record is appended to the end of the stored queue (a missing queue reads as empty); earlier entries are kept and nothing is posted. |
| ClientFocusApi.FocusAnalysisClient.SaveBiometricData | services/FocusAnalysisAPI.ts:119-127 | A successful post records the record and leaves storage alone; a failed post appends it to the offline queue. |
| ClientFocusApi.FocusAnalysisClient.SyncOfflineData | services/FocusAnalysisAPI.ts:175-188 | Queued records are resent in order, exactly the accepted ones are posted, and then the queue is removed whatever the outcome; with no queue nothing happens. |
| ClientFocusApi.FocusAnalysisClient.SyncOfflineDataKeepingFailures | services/FocusAnalysisAPI.ts:175-188 | The corrected sync: the accepted records are posted, exactly the failed ones remain queued, and other storage keys are untouched. |
| ClientFocusApi.SyncLosesFailedRecord | services/FocusAnalysisAPI.ts:178-183 | As written, one queued record whose resend fails is neither posted nor queued afterwards. |
| ClientFocusApi.RepairedSyncKeepsFailedRecord | services/FocusAnalysisAPI.ts:178-183 | With the corrected sync, the same failed record stays queued. |
| BackendModel.Get | HealthKit_Backend/app/model.py:73-85 | `dict.get`: the stored value when the key is present, the default otherwise. |
| BackendModel.ExtractFeatures | HealthKit_Backend/app/model.py:68-88 | Four features, in the order heart rate, sleep, steps / 1000, stress; the third times 1000 is the step count. |
| BackendModel.EmptyRequestFeatures | HealthKit_Backend/app/model.py:73-86 | An empty request gives the defaults 70, 7, 5 (5000 steps) and 3. |
| BackendModel.HeartRateAdjustment | HealthKit_Backend/app/model.py:99-105 | +10 for a heart rate in [60, 80], -5 below, -10 above. |
| BackendModel.SleepAdjustment | HealthKit_Backend/app/model.py:107-111 | +10 for sleep in [7, 9] hours, -5 otherwise. |
| BackendModel.DefaultScore | HealthKit_Backend/app/model.py:97-116 | The default score lies in [0, 100] and equals the unclamped sum when that sum is in range. |
| BackendModel.IdealDefaultScore | HealthKit_Backend/app/model.py:97-116 | Ideal heart rate and sleep give 75 + 10 + 10 - 3 × stress. |
| BackendModel.DefaultScoreStressMonotonic | HealthKit_Backend/app/model.py:113-116 | More stress never raises the default score. |
| BackendModel.EmptyRequestScore | HealthKit_Backend/app/model.py:92-116 | A request with every key missing scores 86. |
| BackendModel.BandMessages | HealthKit_Backend/app/model.py:128-136 | Every score band contributes exactly two messages. |
| BackendModel.GenerateRecommendations | HealthKit_Backend/app/model.py:124-147 | The appended list equals the specification list: the band pair, then the sleep advice, then the stress advice. |
| BackendModel.RecommendationsShape | HealthKit_Backend/app/model.py:128-147 | The list opens with exactly the band pair and holds 2 to 4 messages; the sleep advice is present iff sleep < 6, the stress advice iff stress > 7. |
| BackendModel.DefaultPrediction | HealthKit_Backend/app/model.py:90-122 | The default prediction has a score in [0, 100], confidence 0.7 and 2 to 4 recommendations. |
| BackendModel.ConcentrationModel.constructor | HealthKit_Backend/app/model.py:11-20 | The path is remembered and the model is whatever loading produced. |
| BackendModel.ConcentrationModel.LoadModel | HealthKit_Backend/app/model.py:22-34 | The model becomes the loaded one, or none when loading failed; the path is kept. |
| BackendModel.ConcentrationModel.PredictConcentration | HealthKit_Backend/app/model.py:36-66 | With no model, or when the trained model raises, the result is the default prediction; otherwise it is the model's score and confidence with the banded recommendations. |
| BackendModel.WithoutModelDefaultBounds | HealthKit_Backend/app/model.py:47-49 | Without a model every prediction is bounded and opens with the band pair of its score. |
| BackendSchemas.WithDefault | HealthKit_Backend/app/schemas.py:7-13 | A missing field takes its default, an explicit null stays empty, and a given value is kept. |
| BackendSchemas.Optional | HealthKit_Backend/app/schemas.py:52-57 | An optional field without a default is present iff it was given. |
| BackendSchemas.ValidateHealthData | HealthKit_Backend/app/schemas.py:5-13 | A body validates iff no field breaks its bound; a validated body satisfies every bound and is the body with defaults filled in. |
| BackendSchemas.HeartRateViolation | HealthKit_Backend/app/schemas.py:7-10 | A field is reported iff its value is present and outside its bound (shown for heart rate and stress). |
| BackendSchemas.DefaultsAreValid | HealthKit_Backend/app/schemas.py:7-13 | An empty body validates: each default 70, 7.0, 5000, 3, 3, 1, 2.0 lies within its own bound. |
| BackendSchemas.ExampleIsValid | HealthKit_Backend/app/schemas.py:17-25 | The documented example body validates unchanged. |
| BackendSchemas.ValidatedKeepsGivenFields | HealthKit_Backend/app/schemas.py:7-13 | Validation keeps each of the seven given values as it was given. |
| BackendSchemas.ValidateProfile | HealthKit_Backend/app/schemas.py:73-81 | A profile validates iff user id and name are given and age, height and weight lie within [1, 150], [50, 300], [20, 500] when present; the given age, gender, height, weight and goal are kept, other optional fields are absent, and a missing activity goal becomes 10000. |
| BackendSchemas.MinimalProfile | HealthKit_Backend/app/schemas.py:75-81 | A profile with only the required fields validates, with no age, height or weight and goal 10000. |
| BackendSchemas.ValidateMetrics | HealthKit_Backend/app/schemas.py:48-57 | A metrics body validates iff user id and date are given; the result keeps both, and each of the six metrics is its given value, or absent when missing or null. |
| BackendSchemas.MetricsOnlyNeedIdAndDate | HealthKit_Backend/app/schemas.py:50-57 | Any metrics body with both required fields validates, whatever its six metrics hold; a given metric is kept. |
| BackendSchemas.ValidateAnalysis | HealthKit_Backend/app/schemas.py:113-118 | An analysis validates iff its four fields are given, and keeps each of the four values. |
| BackendSchemas.AnalysisHasNoBounds | HealthKit_Backend/app/schemas.py:115-118 | An empty trend and out-of-range peak hours still validate: the schema states no bounds. |
| PredictionApi.Get | api/FocusAnalysisAPI.ts:96-125 | A missing property reads as `undefined`. |
| PredictionApi.PredictionResponse.constructor | api/FocusAnalysisAPI.ts:93 | The response object holds the received fields. |
| PredictionApi.PredictionResponse.Normalize | api/FocusAnalysisAPI.ts:96-126 | The five in-place assignments and the deletion leave the fields equal to the five-step rewrite of the old fields. |
| PredictionApi.NormalizedRecommendations | api/FocusAnalysisAPI.ts:96-126 | After the rewrite the recommendations are truthy and not a string, and an array result is non-empty. |
| PredictionApi.MissingRecommendationsGetPlaceholder | api/FocusAnalysisAPI.ts:112-120 | With neither recommendation field truthy, the recommendations become the single placeholder message. |
| PredictionApi.EmptyStringRecommendationKept | api/FocusAnalysisAPI.ts:107-114 | An empty-string recommendations field is wrapped before the falsiness check, so it survives as `[""]`. |
| PredictionApi.SingularMovesOnlyWhenPluralMissing | api/FocusAnalysisAPI.ts:98-104 | A truthy singular field moves into the plural one (wrapped unless already an array) and is deleted only when the plural one is falsy; otherwise it stays. |
| PredictionApi.StringRecommendationWrapped | api/FocusAnalysisAPI.ts:107-109 | A non-empty string list becomes the one-element list holding it. |
| PredictionApi.TimestampFilled | api/FocusAnalysisAPI.ts:123-125 | A truthy timestamp is kept; a missing or falsy one becomes the current time. |
| PredictionApi.OtherFieldsUnchanged | api/FocusAnalysisAPI.ts:96-126 | Every property other than the three rewritten ones is present and equal after the rewrite iff it was before. |
| PredictionApi.NormalizeIdempotent | api/FocusAnalysisAPI.ts:96-126 | Rewriting an already rewritten response changes nothing, whatever the later time. |
| PredictionApi.DefaultResponse | api/FocusAnalysisAPI.ts:141-146 | The fallback is score 65, confidence 0.7, the placeholder list and the current time. |
| PredictionApi.PredictConcentration | api/FocusAnalysisAPI.ts:87-151 | A failed request gives the default response; an object answer is rewritten; a falsy answer is returned as it is; any other truthy answer fails on the first property assignment and gives the default response. |
| PredictionApi.PredictionAlwaysRecommends | api/FocusAnalysisAPI.ts:96-149 | Whatever the request does, an object result carries a truthy recommendations field, non-empty when it is an array. |
| PredictionApi.PatternParams | api/FocusAnalysisAPI.ts:29-31 | Each date parameter is sent iff it is a non-empty string, with its value. |
| PredictionApi.GetUserFocusPattern | api/FocusAnalysisAPI.ts:21-81 | The server's answer when the request succeeds; otherwise a mock whose daily average lies in [70, 84], whose 7 trend entries lie in [base, base + 9], whose 4 peak hours are (h + weekday mod 3) mod 24 in [0, 23], and whose improvement areas are the evening list iff the hour is after 15. |
| PredictionApi.PeakHoursStayOrdered | api/FocusAnalysisAPI.ts:63 | Every weekday shift keeps the four peak hours in increasing order. |
| HealthKitService.LatestHeartRate | services/HealthKitService.ts:92-110 | The rounded last sample, or 0 on error or with no sample. |
| HealthKitService.Values | services/HealthKitService.ts:124 | The sample values in list order. |
| HealthKitService.RoundedTotal | services/HealthKitService.ts:113-131 | The rounded sum of the sample values, or 0 on error or with no sample (steps and active energy alike). |
| HealthKitService.NonNegativeTotal | services/HealthKitService.ts:124 | Non-negative samples never give a negative total. |
| HealthKitService.RoundToTenth | services/HealthKitService.ts:151 | The result is the nearest tenth: within 0.05 of the input. |
| HealthKitService.SleepHours | services/HealthKitService.ts:134-157 | The loop sums the duration of every sleep sample in hours; the result is 0 on error or with no sample, and otherwise within 0.05 of the true total. |
| HealthKitService.FetchHealthData | services/HealthKitService.ts:45-89 | The fixed dummy values off iOS; on iOS each of the four reducers' results (the latest heart rate, the rounded step and energy totals, and the summed sleep rounded to a tenth, or 0 without samples), the failed initialisation notwithstanding. |
| HealthKitService.Means | services/HealthKitService.ts:293-295 | One value per slot: 0 when the slot has no sample, otherwise the rounded mean of its samples. |
| HealthKitService.BucketMeans | services/HealthKitService.ts:281-295 | The accumulation of sums and counts in two arrays yields exactly `Means`. |
| HealthKitService.OutOfRangeSampleIgnored | services/HealthKitService.ts:326-329 | A sample whose day index is outside the slots changes no slot. |
| HealthKitService.EmptySlotIsZero | services/HealthKitService.ts:293-295 | A slot with no sample is 0. |
| HealthKitService.SlotMeanWithin | services/HealthKitService.ts:293-295 | When every sample of a slot lies in [lo, hi], so does the slot's rounded mean. |
| HealthKitService.Positives | services/HealthKitService.ts:400 | The filtered list holds only positive values, no more than the input, and exactly the input's positive values. |
| HealthKitService.CalculateAverage | services/HealthKitService.ts:399-404 | 0 when no value is positive. |
| HealthKitService.AverageWithinPositives | services/HealthKitService.ts:399-404 | With a positive value present, the average is positive and lies between the smallest and the largest positive value. |
| HealthKitService.MaxOf | services/HealthKitService.ts:305 | The maximum is one of the values and no value exceeds it. |
| HealthKitService.MinPositiveOrZero | services/HealthKitService.ts:306 | The smallest positive value (one of the values), or 0 exactly when no value is positive. |
| HealthKitService.MinAsWritten | services/HealthKitService.ts:306 | The expression as written: a finite result is positive; with no positive value it is `Infinity`. |
| HealthKitService.MinAsWrittenDiffers | services/HealthKitService.ts:306 | The written minimum agrees with the corrected one when a value is positive, and is `Infinity` instead of 0 otherwise. |
| HealthKitService.EmptyWeekHasInfiniteMin | services/HealthKitService.ts:313-351 | A week whose samples (possibly many) all lie outside the last seven days has seven zero slots, and its processed values have an infinite minimum as written. |
| HealthKitService.MeanWithin | services/HealthKitService.ts:403 | The rounded mean of a non-empty list lies within any bounds of its items. |
| HealthKitService.Reverse | services/HealthKitService.ts:343 | Entry i of the reversal is entry n - 1 - i of the input. |
| HealthKitService.ReverseInPlace | services/HealthKitService.ts:347 | Swapping the two ends inward leaves the array equal to the reversal of its old contents. |
| HealthKitService.PositivesReverse | services/HealthKitService.ts:347-349 | Filtering the positive values commutes with reversal. |
| HealthKitService.SumIntsReverse | services/HealthKitService.ts:347-349 | Reversal does not change a sum. |
| HealthKitService.AverageReverse | services/HealthKitService.ts:347-349 | The reversed series has the same average. |
| HealthKitService.HourLabels | services/HealthKitService.ts:298 | 24 labels, label i being `${i}시`. |
| HealthKitService.HourLabelsDistinct | services/HealthKitService.ts:298 | Different hours get different labels. |
| HealthKitService.WeekLabels | services/HealthKitService.ts:338-343 | Seven weekday labels. |
| HealthKitService.ProcessDaily | services/HealthKitService.ts:279-308 | 24 values (the hourly means) and 24 labels, with the statistics of those values. |
| HealthKitService.EveryHourKeyInRange | services/HealthKitService.ts:287 | Every sample falls into one of the 24 hourly slots. |
| HealthKitService.ProcessDays | services/HealthKitService.ts:311-396 | The per-day means reversed so that the oldest day comes first, with the labels reversed alike and the statistics of the reversed values. |
| HealthKitService.ProcessWeekly | services/HealthKitService.ts:311-353 | Seven reversed daily means with the weekday labels, oldest day first. |
| HealthKitService.WeekEndsToday | services/HealthKitService.ts:339-347 | The last entry is today (today's name and the mean of 0 days ago); the first is six days ago. |
| HealthKitService.MonthLabels | services/HealthKitService.ts:382-386 | Thirty date labels. |
| HealthKitService.ProcessMonthly | services/HealthKitService.ts:356-396 | Thirty reversed daily means with the date labels, oldest day first. |
| HealthKitService.DummySeries | services/HealthKitService.ts:417-464 | The dummy series has the asked period and 24, 7 or 30 values and labels. |
| HealthKitService.MaxIsBound | services/HealthKitService.ts:305 | A value that is one of the items and bounds them all is `Math.max` of them. |
| HealthKitService.MinIsBound | services/HealthKitService.ts:306 | A positive item below every other positive item is the series minimum. |
| HealthKitService.DummyDayStats | services/HealthKitService.ts:421-428 | The stated maximum 82 and minimum 52 of the dummy day are its true maximum and smallest positive value. |
| HealthKitService.DummyWeekStats | services/HealthKitService.ts:433-441 | The stated maximum 75 and minimum 68 of the dummy week are its true extremes. |
| HealthKitService.DummyMonthLabelsMatch | services/HealthKitService.ts:447-451 | The dummy month is labelled exactly like a processed month. |
| HealthKitService.FetchHeartRateByPeriod | services/HealthKitService.ts:191-276 | The dummy series off iOS, on a query error or with no sample; otherwise the processed series of the period: its slot values, its labels (hours, weekdays or dates), and the average and maximum of those values and whose minimum is the corrected one; where a value is positive, that minimum is also what the written expression gives. |
| FocusScreenComponent.Qualifying | components/FocusScreen.tsx:150 | Only in-bed and asleep samples are kept, no more than the input. |
| FocusScreenComponent.CountedMinutesAreQualifyingDuration | components/FocusScreen.tsx:146-157 | The screen's sleep hours are the summed duration of the in-bed and asleep samples. |
| FocusScreenComponent.AllQualifyingAgree | components/FocusScreen.tsx:146-157 | When every sample is in bed or asleep, the screen and the HealthKit service count the same sleep. |
| FocusScreenComponent.QualifyingKeepsAll | components/FocusScreen.tsx:150 | The filter keeps a list whose every sample qualifies. |
| FocusScreenComponent.OtherCategoryIgnored | components/FocusScreen.tsx:150-154 | A sample of any other category adds nothing. |
| FocusScreenComponent.CountedMinutesNonNegative | components/FocusScreen.tsx:149-155 | Well-ordered intervals never give a negative total. |
| FocusScreenComponent.CalculateSleepHours | components/FocusScreen.tsx:146-157 | 0 for an empty list; otherwise the accumulated minutes over 60, which is the duration of the qualifying samples. |
| FocusScreenComponent.CalculateActivityLevel | components/FocusScreen.tsx:159-162 | Energy / 500 clamped to [0, 10]: 0 below 0, 10 above 5000. |
| FocusScreenComponent.CalculateStressLevel | components/FocusScreen.tsx:164-169 | 5 when the resting rate is 0; otherwise (current - resting) / 10 clamped to [0, 10]. |
| FocusScreenComponent.ActivityMonotonic | components/FocusScreen.tsx:161 | More energy never lowers the activity level. |
| FocusScreenComponent.IntendedActivityLevel | services/HealthKitService.ts:160-175 | The corrected level: the activity scale applied to the rounded energy total the HealthKit service reports, within [0, 10]. |
| FocusScreenComponent.IntendedActivityMonotonic | services/HealthKitService.ts:169-172 | One more sample of non-negative energy never lowers the corrected level. |
| FocusScreenComponent.ActivityIgnoresEnergy | components/FocusScreen.tsx:102-108 | As written, 600 kcal of samples give activity level 0, where the corrected level is 1.2. |
| FocusScreenComponent.StressMonotonic | components/FocusScreen.tsx:165-168 | Against a known resting rate, a faster current rate never lowers stress. |
| FocusScreenComponent.Payload | components/FocusScreen.tsx:101-133 | User id 'user123', the current time, caffeine 0 and water 0, bounded stress, the qualifying sleep and the last heart rate; the activity level is 0 whatever energy was burned, because `.value` of the sample list is undefined. |
| FocusScreenComponent.PayloadFallbackAdvice | components/FocusScreen.tsx:131-132 | A payload's fallback prediction always advises more water, never less caffeine, and scores at most 70. |
| FocusScreenComponent.FocusScreen.constructor | components/FocusScreen.tsx:36-37 | Not loading and no prediction. |
| FocusScreenComponent.FocusScreen.FetchHealthData | components/FocusScreen.tsx:65-144 | The loading flag is set true and then false in every case; with every query answered the payload (activity 0 as written) is built and the shown prediction updated; any query error keeps the old prediction. |
| FocusScreenComponent.FocusScreen.PressAnalyze | components/FocusScreen.tsx:194 | The button does nothing while loading and otherwise runs a fetch. |
| HeartRateChartComponent.PositionsLength | components/HeartRateChart.tsx:103-120 | There are as many kept positions as kept labels. |
| HeartRateChartComponent.SelectAtPosition | components/HeartRateChart.tsx:103-120 | The k-th kept label is the label at the k-th kept position. |
| HeartRateChartComponent.PositionsIncrease | components/HeartRateChart.tsx:103-120 | Kept positions increase. |
| HeartRateChartComponent.PositionsComplete | components/HeartRateChart.tsx:103-120 | Every position whose test holds is kept. |
| HeartRateChartComponent.KeepFlags | components/HeartRateChart.tsx:109-119 | Position i is kept iff i is a multiple of the step or the last index. |
| HeartRateChartComponent.OptimizedLabels | components/HeartRateChart.tsx:103-120 | No labels without a label list; the week's labels unchanged. |
| HeartRateChartComponent.ThinnedIsSubsequence | components/HeartRateChart.tsx:103-120 | The kept labels are the labels at increasing positions, and position i is kept iff i mod 3 = 0 (day), i mod 5 = 0 (month), always (week), or i is last. |
| HeartRateChartComponent.FirstAndLastKept | components/HeartRateChart.tsx:103-120 | A non-empty label list keeps its first and last labels. |
| HeartRateChartComponent.OptimizedDataset | components/HeartRateChart.tsx:123-139 | The values pass unchanged (none without values); dots are off only for the day. |
| HeartRateChartComponent.MockSeries | components/HeartRateChart.tsx:14-39 | Each mock series has the asked period and one label per value. |
| HeartRateChartComponent.MockStatsConsistent | components/HeartRateChart.tsx:14-39 | Each mock series states its true maximum and smallest positive value. |
| HeartRateChartComponent.Shown | components/HeartRateChart.tsx:54-73 | The fetched series when it has values, the period's mock otherwise; never empty. |
| HeartRateChartComponent.HeartRateChart.constructor | components/HeartRateChart.tsx:42-44 | The chart opens loading on the mock of its initial period. |
| HeartRateChartComponent.HeartRateChart.LoadHeartRateData | components/HeartRateChart.tsx:50-81 | Loading ends and the shown series is the fetched one if it has values, the mock otherwise. |
| HeartRateChartComponent.HeartRateChart.SelectPeriod | components/HeartRateChart.tsx:49-94 | Pressing the period already selected changes nothing; another period reloads the chart for it and shows the series the service returned: the dummy series off iOS or without samples, otherwise the processed slot values and labels of that period with their average. |
| HeartRateChartComponent.ServiceSeriesNeverEmpty | components/HeartRateChart.tsx:71-73 | The service always answers with a non-empty series of the asked period, so it always replaces the mock. |
| FocusDetailedComponent.FormatHour | components/FocusDetailed.tsx:127-131 | Before noon `오전 h시`, at noon `오후 12시`, after noon `오후 (h - 12)시`. |
| FocusDetailedComponent.FormatHourRoundTrip | components/FocusDetailed.tsx:127-131 | Every hour of the day reads back from its label. |
| FocusDetailedComponent.FormatHourInjective | components/FocusDetailed.tsx:127-131 | Different hours of the day are shown differently. |
| FocusDetailedComponent.PeakHoursFormatted | components/FocusDetailed.tsx:124-138 | A missing or empty list gives the fixed default. |
| FocusDetailedComponent.PeakHoursShape | components/FocusDetailed.tsx:125-133 | A non-empty list starts with its first hour's label and is as long as its labels plus one two-character `, ` separator between each pair of neighbours. |
| FocusDetailedComponent.DefaultPeakHoursAreTenAndFifteen | components/FocusDetailed.tsx:137 | The default text is what the peak hours 10 and 15 would give. |
| FocusDetailedComponent.ImprovementMessage | components/FocusDetailed.tsx:141-148 | A missing or empty list gives the fixed default. |
| FocusDetailedComponent.ImprovementDefaultIsTwoAreas | components/FocusDetailed.tsx:141-148 | The default is the two default areas on two lines. |
| FocusDetailedComponent.ImprovementShape | components/FocusDetailed.tsx:141-144 | A non-empty list shows its first area first, and its length is the areas' lengths plus one line break between each pair of neighbours. |
| FocusDetailedComponent.SingleAreaUnchanged | components/FocusDetailed.tsx:143 | A single area is shown as it is. |
| FocusDetailedComponent.SummaryBand | components/FocusDetailed.tsx:181-182 | High iff ≥ 0.8, medium iff in [0.6, 0.8), low iff < 0.6. |
| FocusDetailedComponent.SummaryBandMonotonic | components/FocusDetailed.tsx:181-182 | A higher average never gets a lower band. |
| FocusDetailedComponent.Heatmap | components/FocusDetailed.tsx:91-100 | One cell per trend value; cell i counts round(value × 10) on the date 30 - i days ago. |
| FocusDetailedComponent.HeatmapCountsBounded | components/FocusDetailed.tsx:92-98 | Trend values in [0, 1] give counts in [0, 10]. |
| FocusDetailedComponent.RandomHeatmap | components/FocusDetailed.tsx:102-111 | Thirty cells over the same dates with counts in [1, 10]. |
| FocusDetailedComponent.FallbacksShape | components/FocusDetailed.tsx:57-74 | The hourly fallback has 24 entries peaking at 11 o'clock, and the weekday fallback has 7 entries on the 0–100 scale. |
| FocusDetailedComponent.OrElse | components/FocusDetailed.tsx:57-88 | A present part is used, a missing one takes its fallback. |
| FocusDetailedComponent.FocusDetailedScreen.constructor | components/FocusDetailed.tsx:20-39 | The screen opens loading with zeros for 24 hours and 7 weekdays, empty areas, peak hours, factors and monthly trend, and no cells. |
| FocusDetailedComponent.FocusDetailedScreen.FetchDetailedFocusData | components/FocusDetailed.tsx:44-118 | Loading ends; an answer becomes the focus data with each chart taking its part or its fallback; a failed request changes nothing else. |
| ConcentrationPredictorComponent.ScoreColor | components/ConcentrationPredictor.tsx:55-60 | '#4CAF50' iff ≥ 80, '#FFC107' iff in [60, 80), '#FF9800' iff in [40, 60), '#F44336' iff < 40. |
| ConcentrationPredictorComponent.ScoreColorExhaustive | components/ConcentrationPredictor.tsx:55-60 | Every score gets exactly one of the four colours. |
| ConcentrationPredictorComponent.PanelAndGaugeBands | components/ConcentrationPredictor.tsx:55-60 | The panel and the gauge agree on the bands below 60; the panel's amber band is the gauge's green. |
| ConcentrationPredictorComponent.ConcentrationPredictor.constructor | components/ConcentrationPredictor.tsx:10-14 | No prediction, no error, no analysis, not loading, no request made. |
| ConcentrationPredictorComponent.ConcentrationPredictor.PredictConcentration | components/ConcentrationPredictor.tsx:17-47 | Requests go save, predict, pattern, in that order; the saved record carries the caller's user id and is posted, or queued with the rest of the storage unchanged; a prediction is always shown; a failed pattern request sets the error message and keeps the old analysis; loading ends in every case. |
| GaugeChartComponent.GaugeColor | components/GaugeChart.tsx:11-13 | '#e74c3c' iff < 40, '#e67e22' iff in [40, 60), '#27ae60' iff ≥ 60. |
| GaugeChartComponent.GaugeColorMonotonic | components/GaugeChart.tsx:11-13 | A higher value never gets a lower band's colour. |
| GaugeChartComponent.Fill | components/GaugeChart.tsx:19 | The fill never exceeds 100, is 100 iff the value reaches the maximum, is value / max × 100 below it, and is non-negative for a non-negative value. |
| GaugeChartComponent.DefaultScaleFill | components/GaugeChart.tsx:10-19 | On the default maximum 100 the fill is the value, capped at 100. |
| GaugeChartComponent.DisplayedValue | components/GaugeChart.tsx:26 | The displayed number is the value rounded to the nearest integer. |
| GaugeChartComponent.DisplayedValueInScale | components/GaugeChart.tsx:26 | A value in [0, 100] is displayed as an integer in [0, 100]. |
| WatchConnectivityComponent.Newest | WatchConnectivity.tsx:54-57 | At most 5 entries, newest first: entry i is the (i + 1)-th most recent. |
| WatchConnectivityComponent.NewestStep | WatchConnectivity.tsx:56 | Prepending the new entry to the four newest old entries gives the five newest of the extended history. |
| WatchConnectivityComponent.DebugLog.constructor | WatchConnectivity.tsx:41 | The log starts empty. |
| WatchConnectivityComponent.DebugLog.Add | WatchConnectivity.tsx:54-57 | The entry is added to the history, and the shown log stays the five newest entries. |
| WatchConnectivityComponent.StatusIcon | WatchConnectivity.tsx:314-319 | ⏳ unless activated, then ❌ without the app, then 🔴 unless connected, then 🟢. |
| WatchConnectivityComponent.StatusText | WatchConnectivity.tsx:321-326 | The same precedence in words. |
| WatchConnectivityComponent.GreenIffSyncEnabled | WatchConnectivity.tsx:314-357 | The icon is 🟢 iff the request button is enabled iff the text is "연결됨"; ⏳ iff "세션 준비 중...". |
| WatchConnectivityComponent.Diagnosis | WatchConnectivity.tsx:286-299 | The test's verdict: success iff activated, installed and reachable; session problem iff not activated; app needed iff activated without the app; connection problem iff activated and installed but not reachable. |
| WatchConnectivityComponent.WatchConnectivity.constructor | WatchConnectivity.tsx:37-47 | Disconnected, not installed, not activated, never synced, not initialised, no listeners, empty log. |
| WatchConnectivityComponent.WatchConnectivity.StartAndReadSession | WatchConnectivity.tsx:79-99 | Logs the start and the session read; adopts the reported activation state only when it is non-empty. |
| WatchConnectivityComponent.WatchConnectivity.CheckWatch | WatchConnectivity.tsx:101-132 | Records installed and reachable as answered; activates the session only when both are true; a throwing call stops the rest. |
| WatchConnectivityComponent.WatchConnectivity.Initialize | WatchConnectivity.tsx:68-188 | Runs at most once: a second run changes nothing; the first registers three listeners and runs both halves of the initialisation. |
| WatchConnectivityComponent.WatchConnectivity.OnSession | WatchConnectivity.tsx:143-152 | Nothing once unmounted; otherwise logs and changes the session state only when the event carries an activation state. |
| WatchConnectivityComponent.WatchConnectivity.OnReachability | WatchConnectivity.tsx:161-176 | Nothing once unmounted; otherwise the connection flag becomes the reported value and the session becomes activated iff reachable. |
| WatchConnectivityComponent.WatchConnectivity.OnMessage | WatchConnectivity.tsx:180-187 | Nothing once unmounted; otherwise hands the message on and records the sync time. |
| WatchConnectivityComponent.WatchConnectivity.Cleanup | WatchConnectivity.tsx:191-198 | Marks the component unmounted and removes every listener; nothing else changes. |
| WatchConnectivityComponent.WatchConnectivity.SendMessageToWatch | WatchConnectivity.tsx:201-251 | Only alerts when not connected or without the app; otherwise sends, and on success hands over the mock data and records the sync time. |
| WatchConnectivityComponent.WatchConnectivity.RequestWatchData | WatchConnectivity.tsx:253-263 | Only alerts unless the session is activated; otherwise behaves as a send. |
| WatchConnectivityComponent.WatchConnectivity.TestWatchConnection | WatchConnectivity.tsx:265-312 | Logs the start and the restart, then probes; a diagnosed success leaves the button enabled. |
| WatchConnectivityComponent.WatchConnectivity.Probe | WatchConnectivity.tsx:271-311 | Logs each answer; when no call throws, the verdict is the diagnosis and the flags take the answers (the session state only when reported); otherwise only the test error is raised. |
| WatchConnectivityComponent.WatchConnectivity.PressSync | WatchConnectivity.tsx:350-357 | A disabled button does nothing; an enabled one sends and reports success or failure, and a successful send adds the mock data and the sync time while a failed one changes nothing. |
| WatchConnectivityComponent.RemountStaysDeaf | WatchConnectivity.tsx:68-198 | After an unmount and a second mount, the once-only guard has skipped re-registration, so a reachability event no longer connects the card. |
| Common.Clamp | main.py:150 | The result lies in [lo, hi] and equals x when x is in range. |
| Common.Round | components/GaugeChart.tsx:26 | JavaScript `Math.round`: within half of the input, halves rounded up. |
| Common.JoinLength | components/FocusDetailed.tsx:133 | A join is as long as its parts plus one separator between each pair. |
| Common.SelectMembership | main.py:152-174 | An item of a fixed list of distinct messages is kept iff its flag holds. |
| Common.SelectLength | main.py:152-174 | One item is kept per true flag. |
| Common.ParseNatToString | components/FocusDetailed.tsx:128-131 | Decimal formatting of a natural number reads back as that number. |

## Left out

- HTTP, axios, FastAPI routing, CORS and uvicorn: each request is a parameter holding its answer, or `None` when it fails. The client's `getUserProfile` (services/FocusAnalysisAPI.ts:151-159) only forwards an answer or rethrows, and is not modelled separately.
- `saveHealthData` and `testConnection` (api/FocusAnalysisAPI.ts:156-196) are request plumbing only, with logging; they are not part of this model.
- HealthKit_Backend/app/main.py is not part of this model: it only forwards requests to model.py and returns fixed analyses. The same goes for `get_concentration_prediction` (HealthKit_Backend/app/model.py:152-154), which only forwards.
- Schemas with no field rules, `ConcentrationPrediction` and `APIResponse` (HealthKit_Backend/app/schemas.py:28-33, 96-101), are not modelled.
- The trained model's `predict` and `predict_proba`, and the pickle loading itself: the loaded model is an opaque value, and its prediction is a parameter that may fail.
- AsyncStorage is an abstract map from keys to record lists. JSON parsing and serialisation errors in the queue are not modelled.
- ClientFocusApi.FocusAnalysisClient.SaveOfflineData: storage writes never fail in the model. When `getItem` or `setItem` rejects, the source's catch drops the record silently (services/FocusAnalysisAPI.ts:164-172); that loss is not captured.
- ClientFocusApi.FocusAnalysisClient.SyncOfflineData: storage calls never fail in the model. When `removeItem` rejects, the source leaves the whole queue in place, so records already accepted are sent again on the next sync (services/FocusAnalysisAPI.ts:183); that path is not captured.
- Floating point: scores, durations and averages are exact reals. `toFixed(1)` is modelled as rounding to the nearest tenth, halves up. NaN and the IEEE edge cases are not modelled.
- Dates and clocks: `toISOString`, `toLocaleTimeString`, `getHours`, `getDay` and the date labels are parameters. The local hour of a sample is a function of its time and a fixed offset.
- `Math.random`: each draw is `rand(i)`, reduced to the range the draw is scaled to.
- `initHealthKit` (services/HealthKitService.ts:26-42): its failure is caught and the fallback it computes is discarded, so the queries run regardless. The model therefore does not model it.
- Timers: the refresh `setInterval` in components/FocusScreen.tsx, the loading timeout in components/HeartRateChart.tsx and their cancellation. A refresh is one sequential step.
- Asynchronous interleaving: each handler runs to completion before the next event.
- `console.log`, `Alert` bodies and the colour scheme: an alert is modelled by its title only.
- The session listener's registration failure branch (WatchConnectivity.tsx:154-158): registration is assumed to succeed, so a mount always registers three listeners.
- The payloads handed to `onWatchDataReceived` are kept as data. What the parent screen does with them is not modelled.
- Rendering: JSX, styles, chart configuration and every file that only renders.
- HealthKitService.DummySeries: the dummy day series states an average of 70, while its values' positive mean rounds to 69. The model keeps the stated constant and proves no relation between the two.
- FocusDetailedComponent.FocusDetailedScreen.FetchDetailedFocusData: the screen calls `getDetailedFocusData`, which neither API client defines. As shipped, every run therefore takes the failure path. The model keeps both paths.
- FocusScreenComponent.Qualifying: its contract states only that the kept samples qualify and are no more than the input. That every qualifying sample is kept is stated by `QualifyingKeepsAll` and `OtherCategoryIgnored`.
- PredictionApi.PredictConcentration: a truthy answer that is not an object yields the default response, because setting a property on a string, number or boolean throws in strict mode. A JavaScript array would accept the new properties and be returned with them; the model's arrays carry no properties, so an array answer also yields the default response.
- HealthKitService.ProcessDaily carries the corrected minimum `MinPositiveOrZero` (0 when no slot is positive), not the written `Math.min(...) || 0`, which is `Infinity` in that case (see Findings); where some slot is positive the two agree (`MinAsWrittenDiffers`).
- HealthKitService.ProcessDays carries the corrected minimum `MinPositiveOrZero` (0 when no slot is positive), not the written `Math.min(...) || 0`, which is `Infinity` in that case (see Findings); where some slot is positive the two agree (`MinAsWrittenDiffers`).
- HealthKitService.ProcessWeekly carries the corrected minimum `MinPositiveOrZero` (0 when no slot is positive), not the written `Math.min(...) || 0`, which is `Infinity` in that case (see Findings); where some slot is positive the two agree (`MinAsWrittenDiffers`).
- HealthKitService.ProcessMonthly carries the corrected minimum `MinPositiveOrZero` (0 when no slot is positive), not the written `Math.min(...) || 0`, which is `Infinity` in that case (see Findings); where some slot is positive the two agree (`MinAsWrittenDiffers`).
- HealthKitService.FetchHeartRateByPeriod carries the corrected minimum `MinPositiveOrZero` (0 when no slot is positive), not the written `Math.min(...) || 0`, which is `Infinity` in that case (see Findings); where some slot is positive the two agree (`MinAsWrittenDiffers`).
- BackendModel.ConcentrationModel.PredictConcentration: the request dictionary holds numbers only. An explicit `null` that validation lets through reaches `health_data.get` as `None`, and the comparisons and arithmetic of `_default_prediction` then raise; the except handler calls `_default_prediction` again, so that error escapes `predict_concentration` (HealthKit_Backend/app/model.py:64-66, 92-100). The model always returns a prediction and does not capture this error path.
- BackendSchemas: pydantic's type coercion is not modelled. A value arrives already of the field's type, so the truncation of a fractional number for an `int` field and the rejection of an unparseable `datetime` for `HealthMetrics.date` are not captured.

## Findings

| source | as written | input that shows it | evidently intended | confidence | as-written member | corrected member |
|---|---|---|---|---|---|---|
| services/HealthKitService.ts:306 (also 351, 394) | `Math.min(...values.filter(v => v > 0)) \|\| 0`: with no positive slot `Math.min()` is `Infinity`, which is truthy, so `\|\| 0` never applies | a week whose samples are all 7 or more days old: seven zero slots, `min` is `Infinity` | `min` is 0 when no slot has a sample | not executed | HealthKitService.MinAsWrittenDiffers | HealthKitService.MinPositiveOrZero |
| services/FocusAnalysisAPI.ts:175-188 | each failed resend is queued again by `saveBiometricData`, and then `removeItem` deletes the whole queue, failures included | one queued record whose resend fails: afterwards it is neither posted nor queued | records whose resend fails stay queued for the next sync | not executed | ClientFocusApi.SyncLosesFailedRecord | ClientFocusApi.FocusAnalysisClient.SyncOfflineDataKeepingFailures |
| components/FocusScreen.tsx:108 | `calculateActivityLevel(activeEnergy.value \|\| 0)`: `getActiveEnergyBurned` answers with an array of samples (as services/HealthKitService.ts:162 types and uses it), which has no `value`, so the level is always 0 | one answered energy sample of 600 kcal: activity level 0 is sent instead of 1.2 | the level scales the day's summed active energy | not executed | FocusScreenComponent.ActivityIgnoresEnergy | FocusScreenComponent.IntendedActivityLevel |
