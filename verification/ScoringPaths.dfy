/** The two ways a signal reaches the model: the scoring endpoint, and the body of the consumer's loop. */
module ScoringPaths {
  import opened Wrappers
  import opened Features
  import opened Ensemble
  import opened GatewaySignal

  // The endpoint rejects a malformed signal (422) and answers 503 until the model is loaded.
  method ScoreEndpoint(model: EnsembleThreatModel, lg: real -> real, sig: Signal) returns (result: Option<ScoreResult>)
    ensures result.Some? <==> WellFormed(sig) && model.Loaded()
    ensures result.Some? ==> Some(result.value.decision) == EngineDecision(model.Contents(), lg, sig)
    ensures result.Some? ==> Reports(model.Contents(), ExtractFeatures(lg, sig), result.value)
    ensures result.Some? ==> 0.0 <= result.value.final <= 1.0
  {
    if !WellFormed(sig) {
      return None;
    }
    var vector := ExtractFeatures(lg, sig);
    result := model.ScoreVector(vector);
  }

  // The consumer parses, extracts and scores; an exception skips the message. It is started after the model is loaded.
  method ConsumerDecision(model: EnsembleThreatModel, lg: real -> real, sig: Signal) returns (decision: Option<Verdict>)
    requires model.Loaded()
    ensures decision == EngineDecision(model.Contents(), lg, sig)
    ensures decision == Some(Block) ==>
              var x := ExtractFeatures(lg, sig);
              model.Contents().xgb(x) >= 10.0 / 13.0
              && model.Contents().forest(x) <= model.isoScoreMax - (4.0 / 7.0) * IsoSpan(model.Contents())
  {
    if !WellFormed(sig) {
      return None;
    }
    var vector := ExtractFeatures(lg, sig);
    var result := model.ScoreVector(vector);
    decision := Some(result.value.decision);
    if decision.value == Block {
      var a := model.Contents();
      BlockNeedsBoth(a, a.forest(vector), a.xgb(vector));
    }
  }

  // For one signal and one loaded model both paths come to the same decision.
  method BothPaths(model: EnsembleThreatModel, lg: real -> real, sig: Signal)
    returns (sync: Option<ScoreResult>, async: Option<Verdict>)
    requires model.Loaded()
    ensures sync.Some? == async.Some? && (sync.Some? ==> async == Some(sync.value.decision))
  {
    sync := ScoreEndpoint(model, lg, sig);
    async := ConsumerDecision(model, lg, sig);
  }
}
