/** The integrated analysis: settling the two branches, fusing what they
    delivered and assembling the result record, or the zeroed record when
    assembly raises (deepconf_with_behavior.py:78-101, 230-302). */
module Orchestrator {
  import opened Outcomes
  import opened Values
  import opened Fusion
  import Analyzer

  datatype ModelInfo = ModelInfo(backend: string, model: string)

  /** The result record. `degraded` is not a field of the Python dataclass:
      it marks the zeroed record built by the outer exception handler, so the
      two ways of finishing can be told apart in this model. */
  datatype IntegratedAnalysisResult = IntegratedAnalysisResult(
    integratedConfidence: real,
    analysisConsistency: real,
    recommendationScore: real,
    processingTime: real,
    deepconfResult: Option<Mapping>,
    behaviorResult: Option<Mapping>,
    timestamp: string,
    modelInfo: ModelInfo,
    degraded: bool)

  function ModelInfoOf(a: Analyzer.State): ModelInfo {
    ModelInfo(a.modelBackend, a.modelName)
  }

  function ScoresOf(r: IntegratedAnalysisResult): Scores {
    Scores(r.integratedConfidence, r.analysisConsistency, r.recommendationScore)
  }

  /** What the fusion gets from a settled branch: its value when it
      returned, and `None` when it raised. */
  function BranchResult<T>(o: Outcome<Option<T>>): (v: Option<T>)
    ensures v.Some? <==> o.Returned? && o.value.Some?
    ensures v.Some? ==> o == Returned(v)
  {
    match o
    case Raised => None
    case Returned(x) => x
  }

  /** The record of the exception handler: all three scores 0.0, no
      component results, the metadata of the call. */
  function Zeroed(a: Analyzer.State, timestamp: string, elapsed: real): IntegratedAnalysisResult {
    IntegratedAnalysisResult(0.0, 0.0, 0.0, elapsed, None, None, timestamp, ModelInfoOf(a), true)
  }

  /** `integrated_analysis` once both branches have settled. `timestamp` is
      the one captured before dispatch and `elapsed` the clock reading taken
      when the record is built. The result is degraded exactly when the fusion
      raises, that is when a field it reads holds a non-number; otherwise it
      carries the fused scores, the projected reasoning result and the
      behavior mapping as delivered. */
  function IntegratedAnalysis(a: Analyzer.State,
                              reasoning: Outcome<Option<ReasoningResult>>,
                              behavior: Outcome<Option<Mapping>>,
                              timestamp: string, elapsed: real): (r: IntegratedAnalysisResult)
    ensures r.timestamp == timestamp && r.modelInfo == ModelInfoOf(a) && r.processingTime == elapsed
    ensures r.degraded <==> !Fusible(BranchResult(reasoning), BranchResult(behavior))
    ensures r.degraded ==>
      && r.integratedConfidence == 0.0 && r.analysisConsistency == 0.0 && r.recommendationScore == 0.0
      && r.deepconfResult.None? && r.behaviorResult.None?
    ensures !r.degraded ==>
      && Fuse(BranchResult(reasoning), BranchResult(behavior)) == Returned(ScoresOf(r))
      && r.deepconfResult == Analyzer.SerializeDeepconfResult(BranchResult(reasoning))
      && r.behaviorResult == BranchResult(behavior)
  {
    var d := BranchResult(reasoning);
    var b := BranchResult(behavior);
    match Fuse(d, b)
    case Raised => Zeroed(a, timestamp, elapsed)
    case Returned(s) =>
      IntegratedAnalysisResult(
        s.integratedConfidence, s.analysisConsistency, s.recommendationScore, elapsed,
        Analyzer.SerializeDeepconfResult(d), b, timestamp, ModelInfoOf(a), false)
  }

  /** A branch that raised is treated exactly like one that returned `None`. */
  lemma ExceptionIsAbsence(a: Analyzer.State, reasoning: Outcome<Option<ReasoningResult>>,
                           behavior: Outcome<Option<Mapping>>, timestamp: string, elapsed: real)
    ensures IntegratedAnalysis(a, Raised, behavior, timestamp, elapsed)
         == IntegratedAnalysis(a, Returned(None), behavior, timestamp, elapsed)
    ensures IntegratedAnalysis(a, reasoning, Raised, timestamp, elapsed)
         == IntegratedAnalysis(a, reasoning, Returned(None), timestamp, elapsed)
  {
  }

  /** With nothing from either branch the fusion still runs on the
      fallbacks: full agreement, 0.65 and 0.65, not the zeroed record. */
  lemma BothBranchesMissing(a: Analyzer.State, reasoning: Outcome<Option<ReasoningResult>>,
                                               behavior: Outcome<Option<Mapping>>, timestamp: string, elapsed: real)
    requires BranchResult(reasoning).None? && BranchResult(behavior).None?
    ensures IntegratedAnalysis(a, reasoning, behavior, timestamp, elapsed)
         == IntegratedAnalysisResult(0.65, 1.0, 0.65, elapsed, None, None, timestamp, ModelInfoOf(a), false)
  {
  }

  /** Branch isolation, reasoning side: as long as the record is not
      degraded, its reasoning projection does not depend on how the behavior
      branch settled. */
  lemma ReasoningProjectionIgnoresBehavior(a: Analyzer.State, reasoning: Outcome<Option<ReasoningResult>>,
                                           behavior1: Outcome<Option<Mapping>>, behavior2: Outcome<Option<Mapping>>,
                                           timestamp: string, elapsed: real)
    requires !IntegratedAnalysis(a, reasoning, behavior1, timestamp, elapsed).degraded
    requires !IntegratedAnalysis(a, reasoning, behavior2, timestamp, elapsed).degraded
    ensures IntegratedAnalysis(a, reasoning, behavior1, timestamp, elapsed).deepconfResult
         == IntegratedAnalysis(a, reasoning, behavior2, timestamp, elapsed).deepconfResult
  {
  }

  /** Branch isolation, behavior side: as long as the record is not
      degraded, its behavior passthrough does not depend on how the reasoning
      branch settled. */
  lemma BehaviorPassthroughIgnoresReasoning(a: Analyzer.State,
                                            reasoning1: Outcome<Option<ReasoningResult>>,
                                            reasoning2: Outcome<Option<ReasoningResult>>,
                                            behavior: Outcome<Option<Mapping>>, timestamp: string, elapsed: real)
    requires !IntegratedAnalysis(a, reasoning1, behavior, timestamp, elapsed).degraded
    requires !IntegratedAnalysis(a, reasoning2, behavior, timestamp, elapsed).degraded
    ensures IntegratedAnalysis(a, reasoning1, behavior, timestamp, elapsed).behaviorResult
         == IntegratedAnalysis(a, reasoning2, behavior, timestamp, elapsed).behaviorResult
  {
  }

  /** A failed reasoning branch does not taint the behavior branch: its
      mapping is passed through unchanged and fused against the 0.5
      fallback. */
  lemma ReasoningFailureSparesBehavior(a: Analyzer.State, behavior: Outcome<Option<Mapping>>,
                                       timestamp: string, elapsed: real)
    requires Fusible(None, BranchResult(behavior))
    ensures var r := IntegratedAnalysis(a, Raised, behavior, timestamp, elapsed);
            && !r.degraded
            && r.behaviorResult == BranchResult(behavior)
            && r.deepconfResult.None?
            && Returned(ScoresOf(r)) == Fuse(Some(Reported(Fallback)), BranchResult(behavior))
  {
  }

  /** A failed behavior branch does not taint the reasoning branch: its
      result is projected as usual and its confidence fused against the 0.5
      fallback, without a recommendation blend. */
  lemma BehaviorFailureSparesReasoning(a: Analyzer.State, reasoning: Outcome<Option<ReasoningResult>>,
                                       timestamp: string, elapsed: real)
    requires Readable(ReasoningConfidenceField(BranchResult(reasoning)))
    ensures var r := IntegratedAnalysis(a, reasoning, Raised, timestamp, elapsed);
            var d := NumberOr(ReasoningConfidenceField(BranchResult(reasoning)), Fallback);
            && !r.degraded
            && r.deepconfResult == Analyzer.SerializeDeepconfResult(BranchResult(reasoning))
            && r.behaviorResult.None?
            && Returned(ScoresOf(r)) == Fuse(BranchResult(reasoning), Some(map[ConfidenceScore := Num(Fallback)]))
            && r.integratedConfidence == Integrated(d, Fallback)
            && r.analysisConsistency == Consistency(d, Fallback)
            && r.recommendationScore == r.integratedConfidence
  {
  }

  /** The worked example through the whole call: the reasoning branch raises,
      the behavior branch reports confidence 0.8 and quality 0.9. */
  lemma WorkedExampleEndToEnd(a: Analyzer.State, timestamp: string, elapsed: real)
    ensures var m := map[ConfidenceScore := Num(0.8), RecommendationQuality := Num(0.9)];
            var r := IntegratedAnalysis(a, Raised, Returned(Some(m)), timestamp, elapsed);
            && !r.degraded
            && r.integratedConfidence == 0.65 && r.analysisConsistency == 0.7 && r.recommendationScore == 0.75
            && r.behaviorResult == Some(m)
  {
  }

  /** With in-range inputs a non-degraded record has an integrated
      confidence of at least 0.3, so three zero scores mean the zeroed
      record. */
  lemma ZeroScoresMeanDegraded(a: Analyzer.State, reasoning: Outcome<Option<ReasoningResult>>,
                               behavior: Outcome<Option<Mapping>>, timestamp: string, elapsed: real)
    requires InRange(ReasoningConfidenceField(BranchResult(reasoning)))
    requires InRange(BehaviorField(BranchResult(behavior), ConfidenceScore))
    ensures var r := IntegratedAnalysis(a, reasoning, behavior, timestamp, elapsed);
            !r.degraded ==> r.integratedConfidence >= 0.3
    ensures var r := IntegratedAnalysis(a, reasoning, behavior, timestamp, elapsed);
            r.integratedConfidence == 0.0 ==> r.degraded
  {
  }

  /** Out of range the scores alone do not tell: confidences 3/7 and -4/7
      fuse to three zero scores in a record that is not degraded. */
  lemma ZeroScoresWithoutDegradation(a: Analyzer.State, timestamp: string, elapsed: real)
    ensures var r := IntegratedAnalysis(a, Returned(Some(Reported(3.0 / 7.0))),
                                        Returned(Some(map[ConfidenceScore := Num(-4.0 / 7.0)])), timestamp, elapsed);
            && !r.degraded
            && r.integratedConfidence == 0.0 && r.analysisConsistency == 0.0 && r.recommendationScore == 0.0
  {
  }

  /** The whole call with the two collaborators: the reasoning branch is
      `run_deepconf` on the outcome of `generate`, the behavior branch is
      `analyze_behavior` on the trajectory analyzer; both catch their own
      exceptions, so both settle by returning. */
  function AnalyzeWithCollaborators(a: Analyzer.State,
                                    generate: Outcome<Option<ReasoningResult>>,
                                    profile: Mapping, given: Option<seq<string>>,
                                    analyzeTrajectory: (Mapping, seq<string>) -> Outcome<Option<Mapping>>,
                                    behaviorElapsed: real, timestamp: string, elapsed: real): (r: IntegratedAnalysisResult)
    ensures a.deepconfRunner.None? && a.behaviorAnalyzer.None? ==>
      && !r.degraded
      && r.integratedConfidence == 0.65 && r.analysisConsistency == 1.0 && r.recommendationScore == 0.65
    ensures !r.degraded && r.behaviorResult.Some? ==>
      Analyzer.ProcessingTime in r.behaviorResult.value
      && r.behaviorResult.value[Analyzer.ProcessingTime] == Num(behaviorElapsed)
    ensures r.timestamp == timestamp && r.modelInfo == ModelInfoOf(a)
  {
    var reasoning := Analyzer.RunDeepconf(a, generate);
    var behavior := Analyzer.AnalyzeBehavior(a, profile, given, analyzeTrajectory, behaviorElapsed);
    IntegratedAnalysis(a, Returned(reasoning), Returned(behavior), timestamp, elapsed)
  }
}
