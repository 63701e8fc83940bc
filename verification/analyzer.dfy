/** The analyzer's collaborator guards, its source selection, the projection
    of the reasoning result and the status report
    (deepconf_with_behavior.py:164-228, 354-391). */
module Analyzer {
  import opened Outcomes
  import opened Values

  /** An initialized collaborator client. Its internals are not modelled. */
  datatype Handle = Handle(id: nat)

  /** What the analyzer keeps from construction: the two collaborator handles
      (`None` when initialization failed or the extension is missing), the
      model backend and name, and the `multimodal_sources` entry of the
      behavior configuration, if it has one. */
  datatype State = State(
    deepconfRunner: Option<Handle>,
    behaviorAnalyzer: Option<Handle>,
    modelBackend: string,
    modelName: string,
    configuredSources: Option<seq<string>>)

  /** Sources used when neither the call nor the configuration names any. */
  const DefaultSources: seq<string> := ["text"]

  /** The key under which the behavior branch records its own duration. */
  const ProcessingTime: string := "processing_time"

  // ---------------------------------------------------------------------
  // Reasoning branch (deepconf_with_behavior.py:164-189)

  /** `run_deepconf`: without a runner nothing is generated and the answer
      is `None`; otherwise the collaborator's `generate` settles as
      `generate`, and an exception from it becomes `None` as well. */
  function RunDeepconf(a: State, generate: Outcome<Option<ReasoningResult>>): (r: Option<ReasoningResult>)
    ensures a.deepconfRunner.None? ==> r.None?
    ensures r.Some? <==> a.deepconfRunner.Some? && generate.Returned? && generate.value.Some?
    ensures r.Some? ==> generate == Returned(r)
  {
    if a.deepconfRunner.None? then None
    else
      match generate
      case Raised => None
      case Returned(result) => result
  }

  // ---------------------------------------------------------------------
  // Behavior branch (deepconf_with_behavior.py:191-228)

  /** The sources handed to the trajectory analyzer: the caller's list unless
      it is missing or empty (both falsy in Python), else the configured
      list, else `["text"]`. */
  function SelectSources(given: Option<seq<string>>, configured: Option<seq<string>>): (s: seq<string>)
    ensures given.Some? && |given.value| > 0 ==> s == given.value
    ensures (given.None? || given.value == []) && configured.Some? ==> s == configured.value
    ensures (given.None? || given.value == []) && configured.None? ==> s == DefaultSources
    ensures |s| == 0 ==> configured == Some([])
  {
    if given.Some? && |given.value| > 0 then given.value
    else configured.GetOr(DefaultSources)
  }

  /** `analyze_behavior`: without an analyzer the answer is `None` and the
      collaborator is not consulted. Otherwise `analyzeTrajectory` is given
      the profile and the selected sources; a mapping it returns comes back
      with only `processing_time` set to the measured `elapsed`, and an
      exception, or a `None` that cannot take the key, becomes `None`. */
  function AnalyzeBehavior(a: State, profile: Mapping, given: Option<seq<string>>,
                           analyzeTrajectory: (Mapping, seq<string>) -> Outcome<Option<Mapping>>,
                           elapsed: real): (r: Option<Mapping>)
    ensures a.behaviorAnalyzer.None? ==> r.None?
    ensures var o := analyzeTrajectory(profile, SelectSources(given, a.configuredSources));
            r.Some? <==> a.behaviorAnalyzer.Some? && o.Returned? && o.value.Some?
    ensures var o := analyzeTrajectory(profile, SelectSources(given, a.configuredSources));
            r.Some? ==>
              && r.value.Keys == o.value.value.Keys + {ProcessingTime}
              && r.value[ProcessingTime] == Num(elapsed)
              && forall k :: k in o.value.value && k != ProcessingTime ==> r.value[k] == o.value.value[k]
  {
    if a.behaviorAnalyzer.None? then None
    else
      match analyzeTrajectory(profile, SelectSources(given, a.configuredSources))
      case Raised => None
      case Returned(None) => None
      case Returned(Some(m)) => Some(m[ProcessingTime := Num(elapsed)])
  }

  // ---------------------------------------------------------------------
  // Projection of the reasoning result (deepconf_with_behavior.py:354-376)

  const FinalAnswer: string := "final_answer"
  const ReasoningPaths: string := "reasoning_paths"
  const ModelInfo: string := "model_info"

  /** The four keys of the projection. */
  const SerializedKeys: set<string> := {FinalAnswer, AverageConfidence, ReasoningPaths, ModelInfo}

  /** `m[key]` is the attribute of the same name when the object has one,
      and `default` otherwise. */
  predicate CopiedOr(m: Mapping, attrs: Mapping, key: string, default: Value) {
    key in m && m[key] == (if key in attrs then attrs[key] else default)
  }

  /** `_serialize_deepconf_result`: `None` stays `None`; a result becomes a
      mapping with exactly the four keys, each carrying the attribute of that
      name or its default ('', 0.0, [] and {}). */
  function SerializeDeepconfResult(result: Option<ReasoningResult>): (s: Option<Mapping>)
    ensures s.None? <==> result.None?
    ensures s.Some? ==> s.value.Keys == SerializedKeys
    ensures s.Some? ==>
      && CopiedOr(s.value, result.value.attrs, FinalAnswer, Str(""))
      && CopiedOr(s.value, result.value.attrs, AverageConfidence, Num(0.0))
      && CopiedOr(s.value, result.value.attrs, ReasoningPaths, List([]))
      && CopiedOr(s.value, result.value.attrs, ModelInfo, Dict(map[]))
  {
    match result
    case None => None
    case Some(o) =>
      Some(map[
        FinalAnswer := GetAttr(o, FinalAnswer, Str("")),
        AverageConfidence := GetAttr(o, AverageConfidence, Num(0.0)),
        ReasoningPaths := GetAttr(o, ReasoningPaths, List([])),
        ModelInfo := GetAttr(o, ModelInfo, Dict(map[]))])
  }

  /** The projection is idempotent: projecting an object whose attributes
      are exactly a projection gives that projection back. */
  lemma SerializeIdempotent(result: ReasoningResult)
    ensures var s := SerializeDeepconfResult(Some(result)).value;
            SerializeDeepconfResult(Some(ReasoningResult(s))) == Some(s)
  {
  }

  /** The projection keeps every attribute it names: a result that carries
      all four attributes is projected without a single default. */
  lemma SerializeKeepsPresentAttributes(result: ReasoningResult)
    requires SerializedKeys <= result.attrs.Keys
    ensures SerializeDeepconfResult(Some(result)) == Some(map k | k in SerializedKeys :: result.attrs[k])
  {
    var s := SerializeDeepconfResult(Some(result)).value;
    var expected := map k | k in SerializedKeys :: result.attrs[k];
    assert s.Keys == expected.Keys;
    forall k | k in s
      ensures s[k] == expected[k]
    {
      assert k == FinalAnswer || k == AverageConfidence || k == ReasoningPaths || k == ModelInfo;
    }
    assert s == expected;
  }

  // ---------------------------------------------------------------------
  // Status (deepconf_with_behavior.py:378-391)

  const Version: string := "1.0.0"

  datatype Status = Status(
    deepconfAvailable: bool,
    behaviorAnalysisAvailable: bool,
    modelBackend: string,
    modelName: string,
    version: string)

  /** `get_status`: each availability flag is set exactly when the
      corresponding handle exists; backend and model are echoed; the version
      is fixed. */
  function GetStatus(a: State): (s: Status)
    ensures s.deepconfAvailable <==> a.deepconfRunner.Some?
    ensures s.behaviorAnalysisAvailable <==> a.behaviorAnalyzer.Some?
    ensures s.modelBackend == a.modelBackend && s.modelName == a.modelName
    ensures s.version == "1.0.0"
  {
    Status(a.deepconfRunner.Some?, a.behaviorAnalyzer.Some?, a.modelBackend, a.modelName, Version)
  }

  /** What the status reports is what the guards do: a collaborator reported
      unavailable answers `None` whatever it would have produced, and one
      reported available passes a returned result through. */
  lemma StatusPredictsGuards(a: State, generate: Outcome<Option<ReasoningResult>>, profile: Mapping,
                             given: Option<seq<string>>,
                             analyzeTrajectory: (Mapping, seq<string>) -> Outcome<Option<Mapping>>,
                             elapsed: real)
    ensures !GetStatus(a).deepconfAvailable ==> RunDeepconf(a, generate).None?
    ensures GetStatus(a).deepconfAvailable && generate.Returned? ==> RunDeepconf(a, generate) == generate.value
    ensures !GetStatus(a).behaviorAnalysisAvailable ==> AnalyzeBehavior(a, profile, given, analyzeTrajectory, elapsed).None?
    ensures GetStatus(a).behaviorAnalysisAvailable
              && analyzeTrajectory(profile, SelectSources(given, a.configuredSources)).Returned?
              && analyzeTrajectory(profile, SelectSources(given, a.configuredSources)).value.Some?
            ==> AnalyzeBehavior(a, profile, given, analyzeTrajectory, elapsed).Some?
  {
  }
}
