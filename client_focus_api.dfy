/** The app's client for the focus-analysis backend (`services/FocusAnalysisAPI.ts`):
    the offline fallback scorer and recommender that copy the server's heuristic, the
    prediction request with its mock fallback, and the offline queue kept in the
    device's key-value storage. HTTP calls reach the model as oracle parameters
    (`None` when the request throws) and the storage as a map from keys to the
    decoded record lists. */
module ClientFocusApi {
  import opened Common
  import ServerMain

  /** The client's `BiometricData` interface: every number is a JavaScript number,
      so the step count is a real here. */
  datatype BiometricRecord = BiometricRecord(
    userId: string,
    timestamp: string,
    heartRate: real,
    sleepHours: real,
    steps: real,
    stressLevel: real,
    activityLevel: real,
    caffeineIntake: real,
    waterIntake: real)

  /** The record the client would send for a server-side record. */
  function FromServer(s: ServerMain.BiometricData): (r: BiometricRecord)
    ensures r.userId == s.userId && r.timestamp == s.timestamp
    ensures r.heartRate == s.heartRate && r.sleepHours == s.sleepHours
    ensures r.steps == s.steps as real && r.stressLevel == s.stressLevel
    ensures r.activityLevel == s.activityLevel
    ensures r.caffeineIntake == s.caffeineIntake && r.waterIntake == s.waterIntake
  {
    BiometricRecord(s.userId, s.timestamp, s.heartRate, s.sleepHours, s.steps as real,
                    s.stressLevel, s.activityLevel, s.caffeineIntake, s.waterIntake)
  }

  // ---------------------------------------------------------------------------
  // The mock scorer and recommender

  const MockConfidence: real := 0.8

  /** The adjusted score of `calculateMockScore` before its clamp. */
  function UnclampedMockScore(d: BiometricRecord): real
  {
    70.0
    + (if d.sleepHours < 6.0 then -10.0 else if d.sleepHours > 8.0 then -5.0 else 0.0)
    - d.stressLevel * 2.0
    + (if d.steps < 5000.0 then -5.0 else if d.steps > 10000.0 then 5.0 else 0.0)
    + (if d.caffeineIntake > 200.0 then -5.0 else 0.0)
    + (if d.waterIntake < 1500.0 then -5.0 else 0.0)
  }

  /** The mock score: `Math.max(0, Math.min(100, score))` of the adjusted sum. */
  function MockScore(d: BiometricRecord): (r: real)
    ensures 0.0 <= r <= 100.0
  {
    Clamp(0.0, 100.0, UnclampedMockScore(d))
  }

  /** `calculateMockScore`: reassigns a local score condition by condition. */
  method CalculateMockScore(d: BiometricRecord) returns (score: real)
    ensures 0.0 <= score <= 100.0
    ensures score == MockScore(d)
  {
    score := 70.0;
    if d.sleepHours < 6.0 {
      score := score - 10.0;
    } else if d.sleepHours > 8.0 {
      score := score - 5.0;
    }
    score := score - d.stressLevel * 2.0;
    if d.steps < 5000.0 {
      score := score - 5.0;
    } else if d.steps > 10000.0 {
      score := score + 5.0;
    }
    if d.caffeineIntake > 200.0 {
      score := score - 5.0;
    }
    if d.waterIntake < 1500.0 {
      score := score - 5.0;
    }
    score := Clamp(0.0, 100.0, score);
  }

  /** The six conditions of `generateMockRecommendations`, in the order it checks
      them; the messages are the server's. */
  function MockTriggers(d: BiometricRecord, score: real): seq<bool>
  {
    [d.sleepHours < 6.0, d.stressLevel > 5.0, d.steps < 5000.0,
     d.caffeineIntake > 200.0, d.waterIntake < 1500.0, score < 60.0]
  }

  function MockRecommendations(d: BiometricRecord, score: real): seq<string>
  {
    Select(MockTriggers(d, score), ServerMain.Messages)
  }

  /** `generateMockRecommendations`: one `push` per condition that holds. */
  method GenerateMockRecommendations(d: BiometricRecord, score: real) returns (recommendations: seq<string>)
    ensures recommendations == MockRecommendations(d, score)
  {
    recommendations := [];
    ghost var r0 := recommendations;
    if d.sleepHours < 6.0 {
      recommendations := recommendations + [ServerMain.SleepMessage];
    }
    assert recommendations == AppendIf(r0, d.sleepHours < 6.0, ServerMain.SleepMessage);
    ghost var r1 := recommendations;
    if d.stressLevel > 5.0 {
      recommendations := recommendations + [ServerMain.StressMessage];
    }
    assert recommendations == AppendIf(r1, d.stressLevel > 5.0, ServerMain.StressMessage);
    ghost var r2 := recommendations;
    if d.steps < 5000.0 {
      recommendations := recommendations + [ServerMain.ActivityMessage];
    }
    assert recommendations == AppendIf(r2, d.steps < 5000.0, ServerMain.ActivityMessage);
    ghost var r3 := recommendations;
    if d.caffeineIntake > 200.0 {
      recommendations := recommendations + [ServerMain.CaffeineMessage];
    }
    assert recommendations == AppendIf(r3, d.caffeineIntake > 200.0, ServerMain.CaffeineMessage);
    ghost var r4 := recommendations;
    if d.waterIntake < 1500.0 {
      recommendations := recommendations + [ServerMain.WaterMessage];
    }
    assert recommendations == AppendIf(r4, d.waterIntake < 1500.0, ServerMain.WaterMessage);
    ghost var r5 := recommendations;
    if score < 60.0 {
      recommendations := recommendations + [ServerMain.OverallMessage];
    }
    assert recommendations == AppendIf(r5, score < 60.0, ServerMain.OverallMessage);
    SelectSix(MockTriggers(d, score), ServerMain.Messages);
  }

  /** The offline fallback agrees with the server: on the same fields the mock
      score is the server's score and the mock recommendations are the server's
      recommendations, message for message and in the same order. */
  lemma MockAgreesWithServer(s: ServerMain.BiometricData, score: real)
    ensures MockScore(FromServer(s)) == ServerMain.ConcentrationScore(s)
    ensures MockRecommendations(FromServer(s), score) == ServerMain.Recommendations(s, score)
  {
    var d := FromServer(s);
    assert (d.steps < 5000.0) == (s.steps < 5000);
    assert (d.steps > 10000.0) == (s.steps > 10000);
    assert UnclampedMockScore(d) == ServerMain.UnclampedScore(s);
    assert MockTriggers(d, score) == ServerMain.Triggers(s, score);
  }

  /** `getMockPrediction`: the two helpers' results with confidence 0.8, stamped
      with the current time. */
  method GetMockPrediction(d: BiometricRecord, now: string) returns (p: ServerMain.ConcentrationPrediction)
    ensures p.concentrationScore == MockScore(d)
    ensures 0.0 <= p.concentrationScore <= 100.0
    ensures p.confidence == MockConfidence
    ensures p.recommendations == MockRecommendations(d, MockScore(d))
    ensures p.timestamp == now
  {
    var score := CalculateMockScore(d);
    var recommendations := GenerateMockRecommendations(d, score);
    p := ServerMain.ConcentrationPrediction(score, MockConfidence, recommendations, now);
  }

  /** The user id `predictFocus` sends in place of the caller's. */
  const FixedUserId: string := "user123"

  /** `predictFocus`: sends the record under the fixed user id and the current time;
      the backend's answer is returned when the request succeeds, and the mock
      prediction for the caller's record otherwise. It never fails. */
  method PredictFocus(data: BiometricRecord, now: string,
                      backend: BiometricRecord -> Option<ServerMain.ConcentrationPrediction>)
    returns (sent: BiometricRecord, p: ServerMain.ConcentrationPrediction)
    ensures sent == data.(userId := FixedUserId, timestamp := now)
    ensures backend(sent).Some? ==> p == backend(sent).value
    ensures backend(sent).None? ==>
              p.concentrationScore == MockScore(data) && p.confidence == MockConfidence
              && p.recommendations == MockRecommendations(data, MockScore(data))
              && p.timestamp == now
  {
    sent := data.(userId := FixedUserId, timestamp := now);
    var response := backend(sent);
    if response.Some? {
      p := response.value;
    } else {
      p := GetMockPrediction(data, now);
    }
  }

  /** On a failed request the fallback is the server's own answer to the caller's
      record: whatever the backend does, the app shows the heuristic score. */
  lemma FallbackIsServerHeuristic(s: ServerMain.BiometricData, p: ServerMain.ConcentrationPrediction)
    requires p.concentrationScore == MockScore(FromServer(s))
    requires p.recommendations == MockRecommendations(FromServer(s), MockScore(FromServer(s)))
    ensures p.concentrationScore == ServerMain.ConcentrationScore(s)
    ensures p.recommendations
            == ServerMain.Recommendations(s, ServerMain.ConcentrationScore(s))
  {
    MockAgreesWithServer(s, MockScore(FromServer(s)));
  }

  /** `getUserFocusPattern`: the backend's analysis, with no fallback; `None` when
      the request fails, as the error is rethrown. */
  function GetUserFocusPattern(userId: string, response: Option<ServerMain.FocusAnalysis>)
    : (r: Option<ServerMain.FocusAnalysis>)
    ensures r.None? <==> response.None?
    ensures r.Some? ==> r == response
  {
    if response.Some? then Some(response.value) else None
  }

  // ---------------------------------------------------------------------------
  // The offline queue

  /** The storage key of the offline queue. */
  const OfflineKey: string := "offline_biometric_data"

  /** The records accepted by the backend among the resends of `q`, where `ok(i)`
      says whether the `i`-th resend succeeded. */
  function Accepted(q: seq<BiometricRecord>, ok: nat -> bool): seq<BiometricRecord>
  {
    if |q| == 0 then [] else AppendIf(Accepted(q[..|q| - 1], ok), ok(|q| - 1), q[|q| - 1])
  }

  /** The resends of `q` that failed. */
  function Failed(q: seq<BiometricRecord>, ok: nat -> bool): seq<BiometricRecord>
  {
    if |q| == 0 then [] else AppendIf(Failed(q[..|q| - 1], ok), !ok(|q| - 1), q[|q| - 1])
  }

  /** Every queued record is either accepted or failed, never both and never
      neither: the two lists split the queue. */
  lemma {:induction false} ResendPartition(q: seq<BiometricRecord>, ok: nat -> bool)
    ensures multiset(Accepted(q, ok)) + multiset(Failed(q, ok)) == multiset(q)
    ensures |Accepted(q, ok)| + |Failed(q, ok)| == |q|
  {
    if |q| > 0 {
      ResendPartition(q[..|q| - 1], ok);
      assert q == q[..|q| - 1] + [q[|q| - 1]];
    }
  }

  /** When every resend succeeds, every record reaches the backend, in order. */
  lemma {:induction false} AllAccepted(q: seq<BiometricRecord>, ok: nat -> bool)
    requires forall i: nat :: i < |q| ==> ok(i)
    ensures Accepted(q, ok) == q
    ensures Failed(q, ok) == []
  {
    if |q| > 0 {
      AllAccepted(q[..|q| - 1], ok);
      assert q == q[..|q| - 1] + [q[|q| - 1]];
    }
  }

  /** The client and what it can observe: the device storage and the records the
      backend has accepted. */
  class FocusAnalysisClient {
    var storage: map<string, seq<BiometricRecord>>
    var posted: seq<BiometricRecord>

    constructor (initial: map<string, seq<BiometricRecord>>)
      ensures storage == initial && posted == []
    {
      storage := initial;
      posted := [];
    }

    /** The stored offline queue; a missing entry reads as the empty list. */
    function Queue(): seq<BiometricRecord>
      reads this
    {
      if OfflineKey in storage then storage[OfflineKey] else []
    }

    /** `saveOfflineData`: reads the queue, appends the record, writes it back. */
    method SaveOfflineData(data: BiometricRecord)
      modifies this
      ensures storage == old(storage)[OfflineKey := old(Queue()) + [data]]
      ensures Queue() == old(Queue()) + [data]
      ensures posted == old(posted)
    {
      var queue := Queue();
      queue := queue + [data];
      storage := storage[OfflineKey := queue];
    }

    /** `saveBiometricData`: posts the record; when the post fails (`postOk` false)
        the record joins the end of the offline queue instead. */
    method SaveBiometricData(data: BiometricRecord, postOk: bool)
      modifies this
      ensures postOk ==> posted == old(posted) + [data] && storage == old(storage)
      ensures !postOk ==> posted == old(posted)
                          && storage == old(storage)[OfflineKey := old(Queue()) + [data]]
    {
      if postOk {
        posted := posted + [data];
      } else {
        SaveOfflineData(data);
      }
    }

    /** `syncOfflineData`: resends the stored queue in order, each failure being
        queued again by `saveBiometricData`, and then removes the queue, so the
        failed records are dropped with it. */
    method SyncOfflineData(ok: nat -> bool)
      modifies this
      ensures OfflineKey in old(storage) ==>
                posted == old(posted) + Accepted(old(Queue()), ok)
                && storage == old(storage) - {OfflineKey}
      ensures OfflineKey !in old(storage) ==> posted == old(posted) && storage == old(storage)
    {
      if OfflineKey in storage {
        var queue := storage[OfflineKey];
        assert queue + Failed(queue[..0], ok) == queue;
        var i := 0;
        while i < |queue|
          invariant 0 <= i <= |queue|
          invariant posted == old(posted) + Accepted(queue[..i], ok)
          invariant storage == old(storage)[OfflineKey := queue + Failed(queue[..i], ok)]
        {
          assert queue[..i + 1][..i] == queue[..i];
          ghost var failed := Failed(queue[..i], ok);
          SaveBiometricData(queue[i], ok(i));
          assert (queue + failed) + [queue[i]] == queue + (failed + [queue[i]]);
          i := i + 1;
        }
        storage := storage - {OfflineKey};
      }
    }

    /** The repair: take the queue out of storage before resending it, so that the
        records whose resend fails are exactly the records left queued. */
    method SyncOfflineDataKeepingFailures(ok: nat -> bool)
      modifies this
      ensures posted == old(posted) + Accepted(old(Queue()), ok)
      ensures Queue() == Failed(old(Queue()), ok)
      ensures forall k :: k != OfflineKey ==> (k in storage <==> k in old(storage))
      ensures forall k :: k != OfflineKey && k in storage ==> storage[k] == old(storage)[k]
    {
      if OfflineKey in storage {
        var queue := storage[OfflineKey];
        storage := storage - {OfflineKey};
        var i := 0;
        while i < |queue|
          invariant 0 <= i <= |queue|
          invariant posted == old(posted) + Accepted(queue[..i], ok)
          invariant Queue() == Failed(queue[..i], ok)
          invariant forall k :: k != OfflineKey ==> (k in storage <==> k in old(storage))
          invariant forall k :: k != OfflineKey && k in storage ==> storage[k] == old(storage)[k]
        {
          assert queue[..i + 1][..i] == queue[..i];
          SaveBiometricData(queue[i], ok(i));
          i := i + 1;
        }
        assert queue[..|queue|] == queue;
      }
    }
  }

  /** As written, a sync whose resends all fail leaves nothing queued and nothing
      posted: one queued record, one failed resend, and the record is gone. */
  method SyncLosesFailedRecord(r: BiometricRecord) returns (lost: bool)
    ensures lost
  {
    var client := new FocusAnalysisClient(map[OfflineKey := [r]]);
    var ok: nat -> bool := _ => false;
    client.SyncOfflineData(ok);
    assert [r][..0] == [];
    assert Accepted([r], ok) == [];
    lost := client.posted == [] && client.Queue() == [];
  }

  /** With the repair, the same failed resend keeps the record queued. */
  method RepairedSyncKeepsFailedRecord(r: BiometricRecord) returns (kept: bool)
    ensures kept
  {
    var client := new FocusAnalysisClient(map[OfflineKey := [r]]);
    var ok: nat -> bool := _ => false;
    client.SyncOfflineDataKeepingFailures(ok);
    assert [r][..0] == [];
    assert Failed([r], ok) == [r];
    kept := client.Queue() == [r];
  }
}
