/** The prediction panel (`components/ConcentrationPredictor.tsx`): one run stores the
    user's record, asks for a prediction and fetches the focus pattern, in that
    order, through the shared client; the score colour bands decide how the result
    is drawn. */
module ConcentrationPredictorComponent {
  import opened Common
  import ServerMain
  import ClientFocusApi
  import GaugeChartComponent

  const Green: string := "#4CAF50"
  const Amber: string := "#FFC107"
  const Orange: string := "#FF9800"
  const Red: string := "#F44336"

  /** `getScoreColor`: good from 80, fair from 60, caution from 40, poor below. */
  function ScoreColor(score: real): (c: string)
    ensures c == Green <==> score >= 80.0
    ensures c == Amber <==> 60.0 <= score < 80.0
    ensures c == Orange <==> 40.0 <= score < 60.0
    ensures c == Red <==> score < 40.0
  {
    if score >= 80.0 then Green
    else if score >= 60.0 then Amber
    else if score >= 40.0 then Orange
    else Red
  }

  /** Every score gets exactly one of the four colours. */
  lemma ScoreColorExhaustive(score: real)
    ensures ScoreColor(score) in [Green, Amber, Orange, Red]
    ensures |set c | c in [Green, Amber, Orange, Red] && c == ScoreColor(score)| == 1
  {
    var c := ScoreColor(score);
    assert (set x | x in [Green, Amber, Orange, Red] && x == c) == {c};
  }

  /** The panel and the gauge agree on the poor band (below 40) but not above it:
      a score from 60 to 80 is fair here and already good on the gauge. */
  lemma PanelAndGaugeBands(score: real)
    ensures ScoreColor(score) == Red <==> GaugeChartComponent.GaugeColor(score) == GaugeChartComponent.GaugeRed
    ensures ScoreColor(score) == Orange <==> GaugeChartComponent.GaugeColor(score) == GaugeChartComponent.GaugeOrange
    ensures ScoreColor(score) == Amber ==> GaugeChartComponent.GaugeColor(score) == GaugeChartComponent.GaugeGreen
  {
  }

  const ErrorMessage: string := "집중도 예측 중 오류가 발생했습니다. 다시 시도해주세요."

  /** The requests one run makes, in the order it makes them. */
  datatype Request = Save | Predict | Pattern

  class ConcentrationPredictor {
    var prediction: Option<ServerMain.ConcentrationPrediction>
    var loading: bool
    var error: Option<string>
    var analysis: Option<ServerMain.FocusAnalysis>
    /** The requests made so far. */
    ghost var requests: seq<Request>
    const api: ClientFocusApi.FocusAnalysisClient

    constructor (api: ClientFocusApi.FocusAnalysisClient)
      ensures this.api == api
      ensures prediction.None? && !loading && error.None? && analysis.None? && requests == []
    {
      this.api := api;
      prediction := None;
      loading := false;
      error := None;
      analysis := None;
      requests := [];
    }

    /** `predictConcentration`: saves the record under the user's id and the
        current time, takes the prediction for it (which never fails: the client
        falls back to its heuristic), then fetches the pattern. A failed pattern
        request is the only error: it sets the error message and keeps the old
        analysis. Loading ends in every case. */
    method PredictConcentration(biometricData: ClientFocusApi.BiometricRecord, userId: string,
                                now: string, postOk: bool,
                                backend: ClientFocusApi.BiometricRecord -> Option<ServerMain.ConcentrationPrediction>,
                                patternResponse: Option<ServerMain.FocusAnalysis>)
      modifies this, api
      ensures requests == old(requests) + [Save, Predict, Pattern]
      ensures !loading
      ensures var saved := biometricData.(userId := userId, timestamp := now);
              (postOk ==> api.posted == old(api.posted) + [saved] && api.storage == old(api.storage))
              && (!postOk ==> api.posted == old(api.posted)
                              && api.storage
                                 == old(api.storage)[ClientFocusApi.OfflineKey := old(api.Queue()) + [saved]])
      ensures prediction.Some?
      ensures var sent := biometricData.(userId := ClientFocusApi.FixedUserId, timestamp := now);
              backend(sent).Some? ==> prediction.value == backend(sent).value
      ensures var sent := biometricData.(userId := ClientFocusApi.FixedUserId, timestamp := now);
              backend(sent).None? ==>
                prediction.value.concentrationScore == ClientFocusApi.MockScore(biometricData)
                && prediction.value.confidence == ClientFocusApi.MockConfidence
      ensures patternResponse.Some? ==> error.None? && analysis == patternResponse
      ensures patternResponse.None? ==> error == Some(ErrorMessage) && analysis == old(analysis)
    {
      loading := true;
      error := None;
      api.SaveBiometricData(biometricData.(userId := userId, timestamp := now), postOk);
      requests := requests + [Save];
      var sent, result := ClientFocusApi.PredictFocus(biometricData, now, backend);
      requests := requests + [Predict];
      prediction := Some(result);
      var patternAnalysis := ClientFocusApi.GetUserFocusPattern(userId, patternResponse);
      requests := requests + [Pattern];
      if patternAnalysis.Some? {
        analysis := patternAnalysis;
      } else {
        error := Some(ErrorMessage);
      }
      loading := false;
    }
  }
}
