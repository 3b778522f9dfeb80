/** The screen-side API client (`api/FocusAnalysisAPI.ts`): the prediction request,
    whose loosely shaped JSON answer is rewritten in place into a record with a
    non-empty recommendation list and a timestamp, the fixed answer used when the
    request fails, and the focus-pattern request with its mock pattern. The HTTP
    answer is a parameter (`None` when the request throws); the clock and
    `Math.random` are parameters too. */
module PredictionApi {
  import opened Common

  /** A JSON value as JavaScript sees it after `JSON.parse`, plus `undefined`. */
  datatype JsValue =
    | Undefined
    | Null
    | Bool(b: bool)
    | Num(n: real)
    | Str(s: string)
    | Arr(items: seq<JsValue>)
    | Obj(fields: map<string, JsValue>)

  /** JavaScript truthiness (numbers are never NaN here). */
  predicate Truthy(v: JsValue)
  {
    match v
    case Undefined => false
    case Null => false
    case Bool(b) => b
    case Num(n) => n != 0.0
    case Str(s) => |s| > 0
    case Arr(_) => true
    case Obj(_) => true
  }

  /** Property access: a missing property reads as `undefined`. */
  function Get(fields: map<string, JsValue>, key: string): (v: JsValue)
    ensures key !in fields ==> v == Undefined
  {
    if key in fields then fields[key] else Undefined
  }

  const Placeholder: string := "데이터를 더 수집하면 정확한 예측이 가능합니다."

  // ---------------------------------------------------------------------------
  // Normalisation

  /** Step 1: a truthy singular `recommendation` with no truthy `recommendations`
      becomes `recommendations` (wrapped unless already an array) and is deleted. */
  function MoveSingular(f: map<string, JsValue>): map<string, JsValue>
  {
    var single := Get(f, "recommendation");
    if Truthy(single) && !Truthy(Get(f, "recommendations")) then
      f["recommendations" := if single.Arr? then single else Arr([single])] - {"recommendation"}
    else f
  }

  /** Step 2: a string `recommendations` becomes a one-element array. */
  function WrapString(f: map<string, JsValue>): map<string, JsValue>
  {
    var recs := Get(f, "recommendations");
    if recs.Str? then f["recommendations" := Arr([recs])] else f
  }

  /** Steps 3 and 4: a falsy or empty-array `recommendations` becomes the
      placeholder list. */
  function FillPlaceholder(f: map<string, JsValue>): map<string, JsValue>
  {
    var recs := Get(f, "recommendations");
    if !Truthy(recs) then f["recommendations" := Arr([Str(Placeholder)])]
    else if recs.Arr? && |recs.items| == 0 then f["recommendations" := Arr([Str(Placeholder)])]
    else f
  }

  /** Step 5: a falsy `timestamp` becomes the current time. */
  function FillTimestamp(f: map<string, JsValue>, now: string): map<string, JsValue>
  {
    if !Truthy(Get(f, "timestamp")) then f["timestamp" := Str(now)] else f
  }

  /** The five steps of the rewrite, in order. */
  function NormalizeFields(f: map<string, JsValue>, now: string): map<string, JsValue>
  {
    FillTimestamp(FillPlaceholder(WrapString(MoveSingular(f))), now)
  }

  /** The response object while it is being rewritten in place. */
  class PredictionResponse {
    var fields: map<string, JsValue>

    constructor (fields: map<string, JsValue>)
      ensures this.fields == fields
    {
      this.fields := fields;
    }

    function Property(key: string): JsValue
      reads this
    {
      Get(fields, key)
    }

    /** The five rewriting steps, each an assignment to or deletion of one
        property. */
    method Normalize(now: string)
      modifies this
      ensures fields == NormalizeFields(old(fields), now)
    {
      if Truthy(Property("recommendation")) && !Truthy(Property("recommendations")) {
        var single := Property("recommendation");
        fields := fields["recommendations" := if single.Arr? then single else Arr([single])];
        fields := fields - {"recommendation"};
      }
      if Property("recommendations").Str? {
        fields := fields["recommendations" := Arr([Property("recommendations")])];
      }
      if !Truthy(Property("recommendations")) {
        fields := fields["recommendations" := Arr([Str(Placeholder)])];
      }
      if Property("recommendations").Arr? && |Property("recommendations").items| == 0 {
        fields := fields["recommendations" := Arr([Str(Placeholder)])];
      }
      if !Truthy(Property("timestamp")) {
        fields := fields["timestamp" := Str(now)];
      }
    }
  }

  /** After the rewrite the recommendations are truthy, not a string, and a
      non-empty list whenever they are a list. */
  lemma NormalizedRecommendations(f: map<string, JsValue>, now: string)
    ensures Truthy(Get(NormalizeFields(f, now), "recommendations"))
    ensures !Get(NormalizeFields(f, now), "recommendations").Str?
    ensures Get(NormalizeFields(f, now), "recommendations").Arr? ==>
              |Get(NormalizeFields(f, now), "recommendations").items| > 0
  {
  }

  /** A response with neither recommendation field (absent, `null`, `false`, `0`),
      or with an empty list, gets exactly the placeholder list. */
  lemma MissingRecommendationsGetPlaceholder(f: map<string, JsValue>, now: string)
    requires !Truthy(Get(f, "recommendation"))
    requires !Truthy(Get(f, "recommendations")) || Get(f, "recommendations") == Arr([])
    requires !Get(f, "recommendations").Str?
    ensures Get(NormalizeFields(f, now), "recommendations") == Arr([Str(Placeholder)])
  {
  }

  /** An empty string is wrapped before the falsiness check, so it survives as a
      one-element list holding the empty message rather than the placeholder. */
  lemma EmptyStringRecommendationKept(f: map<string, JsValue>, now: string)
    requires !Truthy(Get(f, "recommendation")) && Get(f, "recommendations") == Str("")
    ensures Get(NormalizeFields(f, now), "recommendations") == Arr([Str("")])
  {
  }

  /** The singular field moves only when the plural one is falsy: it is then
      deleted and its value, wrapped unless an array, is the list; otherwise it is
      left in place. */
  lemma SingularMovesOnlyWhenPluralMissing(f: map<string, JsValue>, now: string)
    ensures Truthy(Get(f, "recommendation")) && !Truthy(Get(f, "recommendations")) ==>
              "recommendation" !in NormalizeFields(f, now)
              && Get(NormalizeFields(f, now), "recommendations")
                 == (if Get(f, "recommendation").Arr? && |Get(f, "recommendation").items| == 0
                     then Arr([Str(Placeholder)])
                     else if Get(f, "recommendation").Arr? then Get(f, "recommendation")
                     else Arr([Get(f, "recommendation")]))
    ensures !(Truthy(Get(f, "recommendation")) && !Truthy(Get(f, "recommendations"))) ==>
              Get(NormalizeFields(f, now), "recommendation") == Get(f, "recommendation")
  {
  }

  /** A string list becomes the one-element list holding it. */
  lemma StringRecommendationWrapped(f: map<string, JsValue>, now: string, s: string)
    requires Get(f, "recommendations") == Str(s) && |s| > 0
    ensures Get(NormalizeFields(f, now), "recommendations") == Arr([Str(s)])
  {
  }

  /** An existing truthy timestamp is kept; a missing or falsy one becomes the
      current time. */
  lemma TimestampFilled(f: map<string, JsValue>, now: string)
    ensures Truthy(Get(f, "timestamp")) ==> Get(NormalizeFields(f, now), "timestamp") == Get(f, "timestamp")
    ensures !Truthy(Get(f, "timestamp")) ==> Get(NormalizeFields(f, now), "timestamp") == Str(now)
  {
  }

  /** Properties other than the three rewritten ones pass through untouched. */
  lemma OtherFieldsUnchanged(f: map<string, JsValue>, now: string, k: string)
    requires k != "recommendation" && k != "recommendations" && k != "timestamp"
    ensures k in NormalizeFields(f, now) <==> k in f
    ensures k in f ==> NormalizeFields(f, now)[k] == f[k]
  {
  }

  /** Rewriting an already rewritten response changes nothing, at whatever later
      time it happens (the current time is an ISO string, never empty). */
  lemma NormalizeIdempotent(f: map<string, JsValue>, now: string, later: string)
    requires |now| > 0
    ensures NormalizeFields(NormalizeFields(f, now), later) == NormalizeFields(f, now)
  {
    var g := NormalizeFields(f, now);
    NormalizedRecommendations(f, now);
    assert Truthy(Get(g, "timestamp"));
    assert MoveSingular(g) == g;
    assert WrapString(g) == g;
    assert FillPlaceholder(g) == g;
  }

  // ---------------------------------------------------------------------------
  // The prediction request

  /** The answer used when the request fails: score 65, confidence 0.7, the
      placeholder list and the current time. */
  function DefaultResponse(now: string): (r: map<string, JsValue>)
    ensures Get(r, "concentration_score") == Num(65.0)
    ensures Get(r, "confidence") == Num(0.7)
    ensures Get(r, "recommendations") == Arr([Str(Placeholder)])
    ensures Get(r, "timestamp") == Str(now)
  {
    map["concentration_score" := Num(65.0), "confidence" := Num(0.7),
        "recommendations" := Arr([Str(Placeholder)]), "timestamp" := Str(now)]
  }

  /** `predictConcentration`. An object answer is rewritten in place; a falsy
      answer is returned as it is; any other truthy value cannot take properties
      in strict mode, so the rewrite throws and, like a failed request, yields the
      default answer. */
  method PredictConcentration(response: Option<JsValue>, now: string) returns (result: JsValue)
    ensures response.None? ==> result == Obj(DefaultResponse(now))
    ensures response.Some? && response.value.Obj? ==>
              result == Obj(NormalizeFields(response.value.fields, now))
    ensures response.Some? && !Truthy(response.value) ==> result == response.value
    ensures response.Some? && Truthy(response.value) && !response.value.Obj? ==>
              result == Obj(DefaultResponse(now))
  {
    if response.None? {
      result := Obj(DefaultResponse(now));
      return;
    }
    var data := response.value;
    if !Truthy(data) {
      result := data;
    } else if data.Obj? {
      var processed := new PredictionResponse(data.fields);
      processed.Normalize(now);
      result := Obj(processed.fields);
    } else {
      result := Obj(DefaultResponse(now));
    }
  }

  /** Whatever happens to the request, a truthy result carries a truthy list of
      recommendations that is non-empty when it is a list. */
  lemma PredictionAlwaysRecommends(response: Option<JsValue>, now: string, result: JsValue)
    requires response.None? ==> result == Obj(DefaultResponse(now))
    requires response.Some? && response.value.Obj? ==>
               result == Obj(NormalizeFields(response.value.fields, now))
    requires response.Some? && Truthy(response.value) && !response.value.Obj? ==>
               result == Obj(DefaultResponse(now))
    requires response.Some? ==> Truthy(response.value)
    ensures result.Obj?
    ensures Truthy(Get(result.fields, "recommendations"))
    ensures Get(result.fields, "recommendations").Arr? ==>
              |Get(result.fields, "recommendations").items| > 0
  {
    if response.Some? && response.value.Obj? {
      NormalizedRecommendations(response.value.fields, now);
    }
  }

  // ---------------------------------------------------------------------------
  // The focus-pattern request and its mock

  /** The query parameters: each date only when it is a non-empty string. */
  function PatternParams(startDate: Option<string>, endDate: Option<string>): (p: map<string, string>)
    ensures "start_date" in p <==> startDate.Some? && |startDate.value| > 0
    ensures "end_date" in p <==> endDate.Some? && |endDate.value| > 0
    ensures "start_date" in p ==> p["start_date"] == startDate.value
    ensures "end_date" in p ==> p["end_date"] == endDate.value
  {
    var p: map<string, string> := map[];
    var p := if startDate.Some? && |startDate.value| > 0 then p["start_date" := startDate.value] else p;
    if endDate.Some? && |endDate.value| > 0 then p["end_date" := endDate.value] else p
  }

  datatype MockPattern = MockPattern(
    dailyAverage: int,
    weeklyTrend: seq<int>,
    peakHours: seq<int>,
    improvementAreas: seq<string>)

  datatype PatternResult = Fetched(data: JsValue) | Mocked(pattern: MockPattern)

  /** The base of each weekday's trend value, Sunday first. */
  const TrendBases: seq<int> := [65, 68, 72, 75, 73, 76, 71]
  /** The peak hours before the weekday shift. */
  const PeakBases: seq<int> := [9, 11, 15, 20]
  const DayAreas: seq<string> := ["규칙적인 수면 패턴 유지", "업무 중 짧은 휴식 시간 확보", "적절한 수분 섭취"]
  const EveningAreas: seq<string> := ["저녁 식사 후 가벼운 산책", "취침 전 전자기기 사용 줄이기", "충분한 수면 시간 확보"]

  /** `getUserFocusPattern`: the server's answer when the request succeeds;
      otherwise a mock built from the weekday, the hour and `rand` (the successive
      draws of `Math.random`, reduced to the range each draw is scaled to). */
  method GetUserFocusPattern(response: Option<JsValue>, dayOfWeek: nat, hour: nat, rand: nat -> nat)
    returns (r: PatternResult)
    ensures response.Some? ==> r == Fetched(response.value)
    ensures response.None? ==> r.Mocked?
    ensures r.Mocked? ==>
              var m := r.pattern;
              70 <= m.dailyAverage <= 84
              && |m.weeklyTrend| == 7
              && (forall i :: 0 <= i < 7 ==> TrendBases[i] <= m.weeklyTrend[i] <= TrendBases[i] + 9)
              && |m.peakHours| == 4
              && (forall i :: 0 <= i < 4 ==> m.peakHours[i] == (PeakBases[i] + dayOfWeek % 3) % 24)
              && (forall i :: 0 <= i < 4 ==> 0 <= m.peakHours[i] <= 23)
              && m.improvementAreas == (if hour > 15 then EveningAreas else DayAreas)
  {
    if response.Some? {
      r := Fetched(response.value);
      return;
    }
    var shift := dayOfWeek % 3;
    var mockData := MockPattern(
      70 + rand(0) % 15,
      [65 + rand(1) % 10, 68 + rand(2) % 10, 72 + rand(3) % 10, 75 + rand(4) % 10,
       73 + rand(5) % 10, 76 + rand(6) % 10, 71 + rand(7) % 10],
      [(9 + shift) % 24, (11 + shift) % 24, (15 + shift) % 24, (20 + shift) % 24],
      DayAreas);
    if hour > 15 {
      mockData := mockData.(improvementAreas := EveningAreas);
    }
    r := Mocked(mockData);
  }

  /** Every weekday shift keeps the peak hours in the morning-to-evening order they
      are listed in. */
  lemma PeakHoursStayOrdered(dayOfWeek: nat)
    ensures forall i, j :: 0 <= i < j < 4 ==>
              (PeakBases[i] + dayOfWeek % 3) % 24 < (PeakBases[j] + dayOfWeek % 3) % 24
  {
  }
}
